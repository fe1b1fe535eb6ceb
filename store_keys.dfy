/**
 * The key families of the one Redis keyspace the routes share:
 * `login_attempts_<u>` and `lockout_<u>` (routes/auth.js:19-20),
 * `assignments:all:<JSON of the order clause>` (routes/assignments.js:58) and
 * `assignment:<id>` (routes/assignments.js:106, 150, 175). Each family is
 * injective in its argument and no two families share a key, which is what
 * lets the rest of the model keep the login keys and the cache keys in
 * separate maps.
 */
module StoreKeys {
  import opened Text
  import opened OrderClause

  function AttemptsKey(username: string): string {
    "login_attempts_" + username
  }

  function LockoutKey(username: string): string {
    "lockout_" + username
  }

  function ListKey(clause: seq<OrderPair>): string {
    "assignments:all:" + ClauseText(clause)
  }

  function ItemKey(id: int): string {
    "assignment:" + Decimal(id)
  }

  /** The text after a fixed prefix determines a prefixed key. */
  lemma PrefixCancels(prefix: string, u: string, v: string)
    ensures prefix + u == prefix + v ==> u == v
  {
    if prefix + u == prefix + v {
      assert u == (prefix + u)[|prefix|..];
      assert v == (prefix + v)[|prefix|..];
    }
  }

  lemma AttemptsKeyInjective(u: string, v: string)
    ensures AttemptsKey(u) == AttemptsKey(v) ==> u == v
  {
    PrefixCancels("login_attempts_", u, v);
  }

  lemma LockoutKeyInjective(u: string, v: string)
    ensures LockoutKey(u) == LockoutKey(v) ==> u == v
  {
    PrefixCancels("lockout_", u, v);
  }

  /** Two order clauses share a list key only if they are the same clause. */
  lemma ListKeyInjective(c1: seq<OrderPair>, c2: seq<OrderPair>)
    ensures ListKey(c1) == ListKey(c2) ==> c1 == c2
  {
    if ListKey(c1) == ListKey(c2) {
      PrefixCancels("assignments:all:", ClauseText(c1), ClauseText(c2));
      ClauseRoundTrip(c1);
      ClauseRoundTrip(c2);
    }
  }

  /** Two ids share an item key only if they are the same id. */
  lemma ItemKeyInjective(m: int, n: int)
    ensures ItemKey(m) == ItemKey(n) ==> m == n
  {
    if ItemKey(m) == ItemKey(n) {
      PrefixCancels("assignment:", Decimal(m), Decimal(n));
      DecimalInjective(m, n);
    }
  }

  /** No key belongs to two families. */
  lemma KeyFamiliesDisjoint(u: string, v: string, clause: seq<OrderPair>, id: int)
    ensures AttemptsKey(u) != LockoutKey(v)
    ensures AttemptsKey(u) != ListKey(clause) && AttemptsKey(u) != ItemKey(id)
    ensures LockoutKey(v) != ListKey(clause) && LockoutKey(v) != ItemKey(id)
    ensures ListKey(clause) != ItemKey(id)
  {
    assert AttemptsKey(u)[2] == 'g' && LockoutKey(v)[2] == 'c';
    assert AttemptsKey(u)[0] == 'l' && LockoutKey(v)[0] == 'l';
    assert ListKey(clause)[0] == 'a' && ItemKey(id)[0] == 'a';
    assert ListKey(clause)[10] == 's' && ItemKey(id)[10] == ':';
  }
}
