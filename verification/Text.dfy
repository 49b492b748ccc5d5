/** White space, and trimming it off. */
module Text {

  datatype Cutset = Ascii | Unicode

  /** Blanks skipped between chunks and trimmed off a chunk that gets closed. */
  predicate IsBlank(c: char) {
    c == ' ' || c == '\t' || c == '\n' || c == '\r'
  }

  /** White space in the sense of the Unicode White_Space property. */
  predicate IsSpace(c: char) {
    var k := c as int;
    || 9 <= k <= 13 || k == 32
    || (k > 127 && (k == 0x85 || k == 0xA0 || k == 0x1680 || 0x2000 <= k <= 0x200A
                    || k == 0x2028 || k == 0x2029 || k == 0x202F || k == 0x205F || k == 0x3000))
  }

  predicate Trims(cutset: Cutset, c: char) {
    match cutset
    case Ascii => IsBlank(c)
    case Unicode => IsSpace(c)
  }

  function FirstKept(s: string, i: int): (k: int)
    requires 0 <= i <= |s|
    ensures i <= k <= |s|
    ensures forall j | i <= j < k :: IsSpace(s[j])
    decreases |s| - i
  {
    if i < |s| && IsSpace(s[i]) then FirstKept(s, i + 1) else i
  }

  function LastKept(s: string, cutset: Cutset, lo: int, end: int): (k: int)
    requires 0 <= lo <= end <= |s|
    ensures lo <= k <= end
    ensures forall j | k <= j < end :: IsSpace(s[j])
    ensures k > lo ==> !Trims(cutset, s[k - 1])
    decreases end - lo
  {
    if lo < end && Trims(cutset, s[end - 1]) then LastKept(s, cutset, lo, end - 1) else end
  }

  function TrimRight(s: string, cutset: Cutset): string {
    s[..LastKept(s, cutset, 0, |s|)]
  }

  function TrimSpace(s: string): string {
    var lo := FirstKept(s, 0);
    s[lo..LastKept(s, Unicode, lo, |s|)]
  }

  lemma {:induction false} TrimClean(s: string)
    requires s != [] ==> !IsSpace(s[0]) && !IsSpace(s[|s| - 1])
    ensures TrimSpace(s) == s
  {
    assert s[0..|s|] == s;
  }

  lemma {:induction false} TrimEnds(s: string)
    ensures TrimSpace(s) != [] ==> !IsSpace(TrimSpace(s)[0]) && !IsSpace(TrimSpace(s)[|TrimSpace(s)| - 1])
  {
    FirstKeptStops(s, 0);
  }

  lemma {:induction false} FirstKeptStops(s: string, i: nat)
    requires i <= |s|
    ensures FirstKept(s, i) < |s| ==> !IsSpace(s[FirstKept(s, i)])
    decreases |s| - i
  {
    if i < |s| && IsSpace(s[i]) { FirstKeptStops(s, i + 1); }
  }

  /** The code points of that property. */
  const WHITE_SPACE := {9, 10, 11, 12, 13, 32, 133, 160, 5760, 8192, 8193, 8194, 8195, 8196, 8197, 8198, 8199, 8200,
                        8201, 8202, 8232, 8233, 8239, 8287, 12288}

  lemma {:induction false} SpacesAre(c: char)
    ensures IsSpace(c) <==> c as int in WHITE_SPACE
  {}

  /** Trimming takes off white space at both ends, all of it and nothing else. */
  lemma {:induction false} TrimMeans(s: string) returns (i: nat, j: nat)
    ensures i <= j <= |s| && TrimSpace(s) == s[i..j]
    ensures forall k | 0 <= k < i || j <= k < |s| :: s[k] as int in WHITE_SPACE
    ensures i < j ==> s[i] as int !in WHITE_SPACE && s[j - 1] as int !in WHITE_SPACE
  {
    i := FirstKept(s, 0);
    j := LastKept(s, Unicode, i, |s|);
    FirstKeptStops(s, 0);
    forall k | 0 <= k < |s| ensures IsSpace(s[k]) <==> s[k] as int in WHITE_SPACE { SpacesAre(s[k]); }
  }
}
