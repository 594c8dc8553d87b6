/**
 * The bcryptjs library as the handlers use it: `hash(password, 12)` and
 * `compare(password, hash)`. Its internals are not modelled; a library is
 * a pair of functions, and `Lawful` states what the handlers rely on.
 */
module Bcrypt {

  /** The random salt bcrypt draws on every call to `hash`. */
  type Salt = string

  datatype Hasher = Hasher(hash: (Salt, string) -> string, compare: (string, string) -> bool)

  /**
   * A hash is never the plaintext itself, and a password always matches
   * its own hash, whatever salt was drawn.
   */
  ghost predicate Lawful(b: Hasher) {
    && (forall salt, p :: b.hash(salt, p) != p)
    && (forall salt, p :: b.compare(p, b.hash(salt, p)))
  }

  /** The two laws are consistent: some library satisfies them. */
  lemma LawfulHasherExists()
    ensures exists b :: Lawful(b)
  {
    var b := Hasher((salt: Salt, p: string) => "$2a$12$" + p, (p: string, h: string) => h == "$2a$12$" + p);
    forall salt: Salt, p: string
      ensures b.hash(salt, p) != p
    {
      assert |b.hash(salt, p)| == |p| + 7;
    }
    assert Lawful(b);
  }
}
