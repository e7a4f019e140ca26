/** The per-recipient collection of commitments: matcher account -> committed
    amount. The contract keeps it in a persistent unordered map, which also lists
    its keys; `keys` is that listing and `amounts` the key/value view. */
module MatcherMaps {

  type AccountId = string

  datatype MatcherMap = MatcherMap(keys: seq<AccountId>, amounts: map<AccountId, nat>)

  predicate NoDuplicates(s: seq<AccountId>)
  {
    forall i, j :: 0 <= i < j < |s| ==> s[i] != s[j]
  }

  /** The listing names every key exactly once and nothing else. */
  ghost predicate Valid(m: MatcherMap)
  {
    && NoDuplicates(m.keys)
    && (forall k :: k in m.keys <==> k in m.amounts)
  }

  function Empty(): (m: MatcherMap)
    ensures Valid(m) && m.keys == [] && m.amounts == map[]
  {
    MatcherMap([], map[])
  }

  /** `s` with every occurrence of `k` removed, the rest in their order. */
  function Without(s: seq<AccountId>, k: AccountId): (r: seq<AccountId>)
    ensures forall x :: x in r <==> x in s && x != k
    ensures NoDuplicates(s) ==> NoDuplicates(r)
    ensures k !in s ==> r == s
  {
    if s == [] then []
    else if s[0] == k then Without(s[1..], k)
    else
      var rest := Without(s[1..], k);
      assert NoDuplicates(s) ==> NoDuplicates([s[0]] + rest) by {
        if NoDuplicates(s) {
          forall i, j | 0 <= i < j < |s[1..]| ensures s[1..][i] != s[1..][j] {
            assert s[1..][i] == s[i + 1] && s[1..][j] == s[j + 1];
          }
          forall j | 0 <= j < |s[1..]| ensures s[1..][j] != s[0] {
            assert s[1..][j] == s[j + 1];
          }
          assert s[0] !in rest;
        }
      }
      [s[0]] + rest
  }

  /** `set(key, value)`: an existing key keeps its place in the listing and gets
      the new value; a new key is listed last. */
  function Set(m: MatcherMap, k: AccountId, v: nat): (r: MatcherMap)
    requires Valid(m)
    ensures Valid(r)
    ensures r.amounts.Keys == m.amounts.Keys + {k}
    ensures k in r.amounts && r.amounts[k] == v
    ensures forall j :: j in m.amounts && j != k ==> j in r.amounts && r.amounts[j] == m.amounts[j]
    ensures k in m.amounts ==> r.keys == m.keys
    ensures k !in m.amounts ==> r.keys == m.keys + [k]
  {
    if k in m.amounts then MatcherMap(m.keys, m.amounts[k := v])
    else MatcherMap(m.keys + [k], m.amounts[k := v])
  }

  /** `delete(key)`: the key leaves both the listing and the map; deleting a key
      that is absent changes nothing. */
  function Delete(m: MatcherMap, k: AccountId): (r: MatcherMap)
    requires Valid(m)
    ensures Valid(r)
    ensures r.amounts.Keys == m.amounts.Keys - {k}
    ensures forall j :: j in r.amounts ==> r.amounts[j] == m.amounts[j]
    ensures k !in m.amounts ==> r == m
  {
    MatcherMap(Without(m.keys, k), m.amounts - {k})
  }
}
