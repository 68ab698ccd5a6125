/** The few pieces of Python's own semantics that the runner relies on:
    optional values, normal versus exceptional completion of a call,
    the exceptions that can escape, `str.split(".")[0]` and `list(set(xs))`. */
module Python {

  datatype Option<T> = None | Some(value: T)

  /** The exceptions the runner lets escape from one of its calls. */
  datatype PyError =
    | CommandTimeout                       // AgentRun.CommandTimeout("Command timed out")
    | UnboundLocalError(variable: string)  // a local read before any assignment to it

  /** How a Python call ends: it returns a value or it raises. */
  datatype Completion<T> = Normal(value: T) | Abrupt(error: PyError)

  /** `str(e)` for the exceptions above. */
  function ErrorText(e: PyError): string {
    match e
    case CommandTimeout => "Command timed out"
    case UnboundLocalError(v) =>
      "cannot access local variable '" + v + "' where it is not associated with a value"
  }

  /** `s.split(".")[0]`: the text before the first dot, or all of `s` when it has none. */
  function TopSegment(s: string): (r: string)
    ensures r <= s
    ensures '.' !in r
    ensures |r| < |s| ==> s[|r|] == '.'
  {
    if s == [] || s[0] == '.' then [] else [s[0]] + TopSegment(s[1..])
  }

  /** A name without a dot is its own top segment. */
  lemma TopSegmentOfUndotted(s: string)
    requires '.' !in s
    ensures TopSegment(s) == s
  {
    assert forall k :: 0 <= k < |s| ==> s[k] != '.';
  }

  /** The top segment of `a.b` is `a` when `a` has no dot. */
  lemma TopSegmentOfDotted(a: string, b: string)
    requires '.' !in a
    ensures TopSegment(a + "." + b) == a
  {
    var s := a + "." + b;
    var r := TopSegment(s);
    assert forall k :: 0 <= k < |a| ==> s[k] == a[k] && a[k] != '.';
    assert s[|a|] == '.';
    assert forall k :: 0 <= k < |r| ==> r[k] != '.';
    assert |r| == |a|;
    assert r == s[..|a|] == a;
  }

  /** Deduplicating one name leaves it alone. */
  lemma DedupOne(x: string)
    ensures Dedup([x]) == [x]
  {
    assert [x][..0] == [];
  }

  lemma AppendAssociative<T>(a: seq<T>, b: seq<T>, c: seq<T>)
    ensures a + b + c == a + (b + c)
  {
  }

  predicate NoDuplicates<T(==)>(s: seq<T>) {
    forall i, j :: 0 <= i < j < |s| ==> s[i] != s[j]
  }

  /** What is in none of four sequences is not in their concatenation. */
  lemma NotInConcat<T>(x: T, a: seq<T>, b: seq<T>, c: seq<T>, d: seq<T>)
    requires x !in a && x !in b && x !in c && x !in d
    ensures x !in a + b + c + d
  {
  }

  /** In a sequence without duplicates, an element is not in any prefix that ends before it. */
  lemma NotInEarlierPrefix<T>(s: seq<T>, n: nat, j: nat)
    requires NoDuplicates(s) && n <= j < |s|
    ensures s[j] !in s[..n]
  {
    forall i | 0 <= i < n ensures s[..n][i] != s[j] {
      assert s[..n][i] == s[i];
    }
  }

  /** `list(set(s))`, with the order fixed to first occurrence (Python leaves it unspecified). */
  function Dedup(s: seq<string>): (r: seq<string>)
    ensures NoDuplicates(r)
    ensures forall x :: x in r <==> x in s
  {
    if s == [] then []
    else
      var init := Dedup(s[..|s| - 1]);
      assert forall x :: x in s <==> x in s[..|s| - 1] || x == s[|s| - 1];
      if s[|s| - 1] in init then init else init + [s[|s| - 1]]
  }
}
