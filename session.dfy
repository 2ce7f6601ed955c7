/** The admin session: a bearer token and a role string kept in the
    browser's persistent key/value store under two fixed keys. */
module Session {
  import opened Common

  const TokenKey := "token"
  const RoleKey := "userRole"

  /** `localStorage.getItem`: the stored string, or null. */
  function Get(items: map<string, string>, key: string): (v: Option<string>)
    ensures v.Some? <==> key in items
    ensures v.Some? ==> v.value == items[key]
  {
    if key in items then Some(items[key]) else None
  }

  /** The store after a login wrote both session keys; every other key keeps
      its value. */
  function WriteSession(items: map<string, string>, token: string, role: string): (r: map<string, string>)
    ensures Get(r, TokenKey) == Some(token) && Get(r, RoleKey) == Some(role)
    ensures forall k :: k != TokenKey && k != RoleKey ==> Get(r, k) == Get(items, k)
  {
    items[TokenKey := token][RoleKey := role]
  }

  /** The store after a logout removed both session keys; every other key
      keeps its value. */
  function ClearSession(items: map<string, string>): (r: map<string, string>)
    ensures Get(r, TokenKey) == None && Get(r, RoleKey) == None
    ensures forall k :: k != TokenKey && k != RoleKey ==> Get(r, k) == Get(items, k)
  {
    items - {TokenKey, RoleKey}
  }

  /** Two stores that answer every `getItem` alike are the same store. */
  lemma SameAnswersSameStore(a: map<string, string>, b: map<string, string>)
    requires forall k :: Get(a, k) == Get(b, k)
    ensures a == b
  {
    forall k ensures k in a <==> k in b {
      assert Get(a, k).Some? <==> Get(b, k).Some?;
    }
    assert a.Keys == b.Keys;
    forall k | k in a ensures a[k] == b[k] {
      assert Get(a, k) == Get(b, k);
    }
  }

  /** Login writes exactly the keys logout removes: logging in and then out
      leaves the store as a logout alone would, with neither key present. */
  lemma LoginThenLogout(items: map<string, string>, token: string, role: string)
    ensures ClearSession(WriteSession(items, token, role)) == ClearSession(items)
    ensures TokenKey !in ClearSession(WriteSession(items, token, role))
    ensures RoleKey !in ClearSession(WriteSession(items, token, role))
  {
    var a, b := ClearSession(WriteSession(items, token, role)), ClearSession(items);
    forall k ensures Get(a, k) == Get(b, k) {
      if k != TokenKey && k != RoleKey {
        assert Get(a, k) == Get(WriteSession(items, token, role), k) == Get(items, k);
      }
    }
    SameAnswersSameStore(a, b);
  }

  /** Logging out twice is logging out once. */
  lemma LogoutIdempotent(items: map<string, string>)
    ensures ClearSession(ClearSession(items)) == ClearSession(items)
  {
    var a, b := ClearSession(ClearSession(items)), ClearSession(items);
    forall k ensures Get(a, k) == Get(b, k) {
    }
    SameAnswersSameStore(a, b);
  }

  /** The browser's `localStorage`: string keys mapped to string values. */
  class Storage {
    var items: map<string, string>

    constructor (initial: map<string, string>)
      ensures items == initial
    {
      items := initial;
    }

    function GetItem(key: string): (v: Option<string>)
      reads this
      ensures v == Get(items, key)
    {
      Get(items, key)
    }

    method SetItem(key: string, value: string)
      modifies this
      ensures items == old(items)[key := value]
    {
      items := items[key := value];
    }

    method RemoveItem(key: string)
      modifies this
      ensures items == old(items) - {key}
    {
      items := items - {key};
    }
  }
}
