/** String helpers of the host language: stripping, searching, joining. */
module Text {
  import opened Wrappers

  /** White space as `str.strip` sees it, below the astral planes. */
  predicate IsSpace(c: char) {
    || '\t' <= c <= '\r' || '\U{1c}' <= c <= '\U{20}' || c == '\U{85}' || c == '\U{a0}' || c == '\U{1680}'
    || '\U{2000}' <= c <= '\U{200a}' || c == '\U{2028}' || c == '\U{2029}' || c == '\U{202f}'
    || c == '\U{205f}' || c == '\U{3000}'
  }

  /** By code point: five controls from tab to carriage return, four separators, and the spaces of Unicode. */
  lemma SpacesAre(c: char)
    ensures IsSpace(c) <==>
              (c as int) in {9, 10, 11, 12, 13, 28, 29, 30, 31, 32, 133, 160, 5760, 8192, 8193, 8194, 8195, 8196, 8197,
                             8198, 8199, 8200, 8201, 8202, 8232, 8233, 8239, 8287, 12288}
  {
  }

  function TrimLeft(s: string): string {
    if s != "" && IsSpace(s[0]) then TrimLeft(s[1..]) else s
  }

  function TrimRight(s: string): string {
    if s != "" && IsSpace(s[|s| - 1]) then TrimRight(s[..|s| - 1]) else s
  }

  function Trim(s: string): string {
    TrimRight(TrimLeft(s))
  }

  lemma TrimIsIdentity(s: string)
    requires s == "" || (!IsSpace(s[0]) && !IsSpace(s[|s| - 1]))
    ensures Trim(s) == s
  {
  }

  lemma {:induction false} TrimLeftStart(s: string)
    ensures TrimLeft(s) == "" || !IsSpace(TrimLeft(s)[0])
  {
    if s != "" && IsSpace(s[0]) { TrimLeftStart(s[1..]); }
  }

  lemma {:induction false} TrimRightEnds(s: string)
    requires s == "" || !IsSpace(s[0])
    ensures var r := TrimRight(s); r == "" || (!IsSpace(r[0]) && !IsSpace(r[|r| - 1]))
  {
    if s != "" && IsSpace(s[|s| - 1]) { TrimRightEnds(s[..|s| - 1]); }
  }

  lemma TrimIdempotent(s: string)
    ensures Trim(Trim(s)) == Trim(s)
  {
    TrimLeftStart(s);
    TrimRightEnds(TrimLeft(s));
    TrimIsIdentity(Trim(s));
  }

  predicate AllSpace(s: string) {
    forall k :: 0 <= k < |s| ==> IsSpace(s[k])
  }

  /** Trimming takes white space off both ends and nothing else, until none is left there. */
  lemma TrimIsStrip(s: string) returns (i: nat, j: nat)
    ensures i <= j <= |s| && Trim(s) == s[i..j]
    ensures AllSpace(s[..i]) && AllSpace(s[j..])
    ensures i == j || (!IsSpace(s[i]) && !IsSpace(s[j - 1]))
  {
    i := TrimLeftDrops(s);
    TrimLeftStart(s);
    var k := TrimRightDrops(s[i..]);
    j := i + k;
    assert s[i..][..k] == s[i..j] && s[i..][k..] == s[j..];
  }

  lemma {:induction false} TrimLeftDrops(s: string) returns (i: nat)
    ensures i <= |s| && TrimLeft(s) == s[i..] && AllSpace(s[..i])
  {
    if s != "" && IsSpace(s[0]) {
      var k := TrimLeftDrops(s[1..]);
      i := k + 1;
      forall m | 0 <= m < i ensures IsSpace(s[m]) {
        if m > 0 { assert s[1..][..k][m - 1] == s[m]; }
      }
    } else {
      i := 0;
    }
  }

  lemma {:induction false} TrimRightDrops(s: string) returns (j: nat)
    ensures j <= |s| && TrimRight(s) == s[..j] && AllSpace(s[j..])
    ensures j > 0 ==> !IsSpace(s[j - 1])
  {
    if s != "" && IsSpace(s[|s| - 1]) {
      var n := |s| - 1;
      j := TrimRightDrops(s[..n]);
      forall m | 0 <= m < |s| - j ensures IsSpace(s[j..][m]) {
        if j + m < n { assert s[..n][j..][m] == s[j + m]; }
      }
      assert s[..n][..j] == s[..j];
    } else {
      j := |s|;
      assert s[..j] == s;
    }
  }

  function Join(separator: string, parts: seq<string>): string {
    if parts == [] then ""
    else if |parts| == 1 then parts[0]
    else parts[0] + separator + Join(separator, parts[1..])
  }

  /** The first index at which `p` holds, or the length. */
  function FirstIndex<T>(xs: seq<T>, p: T -> bool): (r: nat)
    ensures r <= |xs|
    ensures r < |xs| ==> p(xs[r])
    ensures forall j :: 0 <= j < r ==> !p(xs[j])
  {
    if xs == [] || p(xs[0]) then 0 else 1 + FirstIndex(xs[1..], p)
  }

  predicate StartsWith(s: string, prefix: string) {
    |prefix| <= |s| && s[..|prefix|] == prefix
  }

  /** The first index at which `marker` starts. */
  function IndexOf(s: string, marker: string): (r: Option<nat>)
    ensures r.Some? ==> r.value + |marker| <= |s| && StartsWith(s[r.value..], marker)
  {
    if StartsWith(s, marker) then Some(0)
    else if s == "" then None
    else
      var r := IndexOf(s[1..], marker);
      if r.Some? then Some(r.value + 1) else None
  }

  lemma IndexOfStep(s: string, marker: string)
    ensures IndexOf(s, marker) == Some(0) <==> StartsWith(s, marker)
    ensures !StartsWith(s, marker) && s == "" ==> IndexOf(s, marker) == None
    ensures !StartsWith(s, marker) && s != "" ==>
              IndexOf(s, marker) == if IndexOf(s[1..], marker).Some? then Some(IndexOf(s[1..], marker).value + 1) else None
  {
  }

  lemma {:induction false} IndexOfIsFirst(s: string, marker: string)
    ensures var r := IndexOf(s, marker);
            && (r.Some? ==> forall j :: 0 <= j < r.value ==> !StartsWith(s[j..], marker))
            && (r.None? <==> forall j :: 0 <= j <= |s| ==> !StartsWith(s[j..], marker))
  {
    assert s[0..] == s;
    if !StartsWith(s, marker) && s != "" {
      IndexOfIsFirst(s[1..], marker);
      assert forall j :: 0 <= j < |s| ==> s[1..][j..] == s[j + 1..];
      assert forall j :: 1 <= j <= |s| ==> s[j..] == s[1..][j - 1..];
    }
  }
}
