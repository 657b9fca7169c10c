/** Two helpers of the command-line tool (pkg/fctl/utils.go): joining path components, and the
    name under which a processor's endpoint is deployed. */
module Fctl {

  /** `strings.TrimSuffix(p, "/")`: drops one trailing slash, if there is one. */
  function TrimSlash(p: string): string {
    if |p| > 0 && p[|p| - 1] == '/' then p[..|p| - 1] else p
  }

  /** Trimming removes exactly one trailing slash: putting it back gives the component again,
      so leading and interior characters, and all slashes but the last, are kept. */
  lemma {:induction false} TrimSlashRemovesOne(p: string)
    ensures |p| > 0 && p[|p| - 1] == '/' ==> TrimSlash(p) + "/" == p
    ensures !(|p| > 0 && p[|p| - 1] == '/') ==> TrimSlash(p) == p
    ensures TrimSlash(p) <= p && |p| - 1 <= |TrimSlash(p)|
  {
    if |p| > 0 && p[|p| - 1] == '/' {
      assert p[..|p| - 1] + "/" == p;
    }
  }

  /** Only one slash goes: "a//" becomes "a/". */
  lemma {:induction false} DoubleSlashKeepsOne()
    ensures TrimSlash("a//") == "a/"
  {
    assert "a//"[..2] == "a/";
  }

  /** The trimmed components, separated by single slashes. */
  function Joined(paths: seq<string>): string
    decreases |paths|
  {
    if |paths| == 0 then ""
    else if |paths| == 1 then TrimSlash(paths[0])
    else Joined(paths[..|paths| - 1]) + "/" + TrimSlash(paths[|paths| - 1])
  }

  /** `ConcatPath`. */
  method ConcatPath(paths: seq<string>) returns (s: string)
    ensures s == Joined(paths)
  {
    s := "";
    for i := 0 to |paths|
      invariant s == if i == 0 then "" else Joined(paths[..i]) + (if i < |paths| then "/" else "")
    {
      assert paths[..i + 1][..i] == paths[..i];
      s := s + TrimSlash(paths[i]);
      if i < |paths| - 1 {
        s := s + "/";
      }
    }
    assert paths[..|paths|] == paths;
  }

  /** Joining splits at any component boundary into the two halves and one slash: the
      separators go exactly between neighbouring components. */
  lemma {:induction false} JoinedSplits(paths: seq<string>, k: nat)
    requires 0 < k < |paths|
    ensures Joined(paths) == Joined(paths[..k]) + "/" + Joined(paths[k..])
    decreases |paths|
  {
    var n := |paths|;
    var front := paths[..n - 1];
    var last := TrimSlash(paths[n - 1]);
    assert front[..k] == paths[..k];
    if k == n - 1 {
      assert paths[k..] == [paths[n - 1]];
    } else {
      var left := Joined(paths[..k]);
      var mid := Joined(front[k..]);
      assert Joined(front) == left + "/" + mid by {
        JoinedSplits(front, k);
      }
      assert Joined(paths[k..]) == mid + "/" + last by {
        var tail := paths[k..];
        assert tail[..|tail| - 1] == front[k..];
        assert tail[|tail| - 1] == paths[n - 1];
      }
      assert Joined(paths) == Joined(front) + "/" + last;
      assert (left + "/" + mid) + "/" + last == left + "/" + (mid + "/" + last);
    }
  }

  /** The sum of the trimmed components' lengths. */
  function TrimmedLength(paths: seq<string>): nat
    decreases |paths|
  {
    if |paths| == 0 then 0 else TrimmedLength(paths[..|paths| - 1]) + |TrimSlash(paths[|paths| - 1])|
  }

  /** The joined path is the trimmed components plus exactly `n - 1` separators. */
  lemma {:induction false} JoinedLength(paths: seq<string>)
    requires |paths| > 0
    ensures |Joined(paths)| == TrimmedLength(paths) + |paths| - 1
    decreases |paths|
  {
    if |paths| > 1 {
      JoinedLength(paths[..|paths| - 1]);
    } else {
      assert paths[..0] == [];
    }
  }

  /** A single component is only trimmed; the last component ends the path, preceded by a
      separator when there are several, and no separator follows it. */
  lemma {:induction false} JoinedEnds(paths: seq<string>)
    requires |paths| > 0
    ensures |paths| == 1 ==> Joined(paths) == TrimSlash(paths[0])
    ensures var j := Joined(paths); var last := TrimSlash(paths[|paths| - 1]);
      && |last| <= |j| && j[|j| - |last|..] == last
      && (|paths| > 1 ==> |last| < |j| && j[|j| - |last| - 1] == '/')
  {
    if |paths| > 1 {
      var j := Joined(paths);
      var last := TrimSlash(paths[|paths| - 1]);
      var front := Joined(paths[..|paths| - 1]) + "/";
      assert j == front + last;
      assert j[|j| - |last|..] == last;
      assert j[|j| - |last| - 1] == front[|front| - 1];
    }
  }

  /** `unicode.ToLower` on the ASCII letters. */
  function LowerChar(c: char): char {
    if 'A' <= c <= 'Z' then (c as int + 32) as char else c
  }

  /** `getProcessorEndpointName`: the processor's name in lower case. */
  function ProcessorEndpointName(processorName: string): (r: string)
    ensures |r| == |processorName|
    ensures forall k | 0 <= k < |r| :: r[k] == LowerChar(processorName[k])
  {
    seq(|processorName|, k requires 0 <= k < |processorName| => LowerChar(processorName[k]))
  }

  /** An endpoint name has no upper-case ASCII letter, keeps every other character, and
      lower-casing it again changes nothing. */
  lemma {:induction false} EndpointNameIsLowerCase(processorName: string)
    ensures var r := ProcessorEndpointName(processorName);
      && (forall k | 0 <= k < |r| :: !('A' <= r[k] <= 'Z'))
      && (forall k | 0 <= k < |r| && !('A' <= processorName[k] <= 'Z') :: r[k] == processorName[k])
      && ProcessorEndpointName(r) == r
  {
  }
}
