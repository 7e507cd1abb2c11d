/**
 The list of account types whose management an admin has disabled.

 The store keeps it as a sequence without duplicates. Disabling a type that is
 not listed appends it at the end; re-enabling removes it, so a type re-enabled
 and then disabled again moves to the end.
 */
module AccountTypes {

  /** True when no account type occurs twice in `s`. */
  predicate NoDuplicates(s: seq<string>) {
    forall i, j :: 0 <= i < j < |s| ==> s[i] != s[j]
  }

  /** Disables management of `t`: the type is appended unless it is already listed. */
  function Insert(s: seq<string>, t: string): (r: seq<string>)
    ensures forall x :: x in r <==> x in s || x == t
    ensures NoDuplicates(s) ==> NoDuplicates(r)
    ensures t !in s ==> |r| == |s| + 1 && r[|s|] == t && r[..|s|] == s
  {
    if t in s then s else s + [t]
  }

  /** Re-enables management of `t`: every occurrence of `t` is dropped, the rest keep their order. */
  function Remove(s: seq<string>, t: string): (r: seq<string>)
    ensures forall x :: x in r <==> x in s && x != t
    ensures NoDuplicates(s) ==> NoDuplicates(r)
    ensures |r| <= |s|
  {
    if s == [] then []
    else if s[0] == t then Remove(s[1..], t)
    else
      var rest := Remove(s[1..], t);
      assert NoDuplicates(s) ==> s[0] !in s[1..] && NoDuplicates(s[1..]) by {
        if NoDuplicates(s) {
          forall k | 0 <= k < |s[1..]| ensures s[1..][k] != s[0] {
            assert s[1..][k] == s[k + 1];
          }
        }
      }
      [s[0]] + rest
  }

  /** Re-enabling a type that is not disabled leaves the list as it was. */
  lemma {:induction false} RemoveAbsent(s: seq<string>, t: string)
    requires t !in s
    ensures Remove(s, t) == s
  {
    if s != [] {
      assert s[0] != t;
      RemoveAbsent(s[1..], t);
      assert s == [s[0]] + s[1..];
    }
  }

  /** Removing `t` ignores a trailing `t`. */
  lemma {:induction false} RemoveAppended(s: seq<string>, t: string)
    ensures Remove(s + [t], t) == Remove(s, t)
  {
    if s == [] {
      assert [t][1..] == [];
    } else {
      assert (s + [t])[0] == s[0];
      assert (s + [t])[1..] == s[1..] + [t];
      RemoveAppended(s[1..], t);
    }
  }

  /** Disabling a type that was not disabled and then re-enabling it restores the list exactly. */
  lemma RemoveUndoesInsert(s: seq<string>, t: string)
    requires t !in s
    ensures Remove(Insert(s, t), t) == s
  {
    RemoveAppended(s, t);
    RemoveAbsent(s, t);
  }
}
