/**
 * The handful of regular-expression shapes the pipelines use, each matched
 * the way Python's `re.search` matches it: start positions are tried from the
 * left, alternatives in order, greedy repetitions give back characters one at
 * a time, and a lazy `.*?` takes characters one at a time without crossing a
 * newline. No general regular-expression engine is modelled.
 */
module Patterns {
  import opened Wrappers
  import opened Text

  datatype Shape =
      /** `text`, anywhere. */
    | Literal(text: string)
      /** `\btext\b`. */
    | Word(text: string)
      /** `\b(lead)?text\b`. */
    | OptionalLeadWord(lead: string, text: string)
      /** `\bhead.*?tail(\S+)`, or `\bhead\b.*?tail(\S+)` when `headEndsWord`. */
    | LazyCapture(head: string, headEndsWord: bool, tail: string)
      /** `head(\S+)`. */
    | DirectCapture(head: string)
      /** `(?i)(?:p1|p2|...)[\s-]+([a-zA-Z0-9-]+)`. */
    | PrefixedToken(prefixes: seq<string>)
      /** `a1|a2|...` where each `.` in an alternative stands for any character but a newline. */
    | WildcardAlternatives(alternatives: seq<string>)

  datatype CharClass = NonSpace | Separator | TokenChar

  /** `\S`, `[\s-]` and `[a-zA-Z0-9-]`. */
  predicate InClass(c: char, cls: CharClass) {
    match cls
    case NonSpace => !IsSpace(c)
    case Separator => IsSpace(c) || c == '-'
    case TokenChar => IsAsciiLetter(c) || IsDigit(c) || c == '-'
  }

  /** Length of the longest run of `cls` characters starting at index `j` (a greedy `+` or `*`). */
  function Run(s: string, j: int, cls: CharClass): (n: nat)
    requires 0 <= j <= |s|
    ensures j + n <= |s|
    ensures forall k :: j <= k < j + n ==> InClass(s[k], cls)
    ensures j + n == |s| || !InClass(s[j + n], cls)
    decreases |s| - j
  {
    if j < |s| && InClass(s[j], cls) then 1 + Run(s, j + 1, cls) else 0
  }

  /** The text of that run. */
  function RunText(s: string, j: int, cls: CharClass): (r: string)
    requires 0 <= j <= |s|
    ensures OccursAt(s, r, j)
  {
    s[j..j + Run(s, j, cls)]
  }

  // ----- word shapes -----

  /** `t\b` at `i`. */
  predicate WordEndAt(s: string, t: string, i: int) {
    OccursAt(s, t, i) && Boundary(s, i + |t|)
  }

  /** `\bt\b` at `i`. */
  predicate WordAt(s: string, t: string, i: int) {
    WordEndAt(s, t, i) && Boundary(s, i)
  }

  // ----- lazy and direct captures -----

  /** `tail(\S+)` can match at index `j`. */
  predicate TailCaptureAt(s: string, tail: string, j: int) {
    OccursAt(s, tail, j) && j + |tail| < |s| && !IsSpace(s[j + |tail|])
  }

  predicate NoNewline(s: string, a: int, b: int)
    requires 0 <= a && b <= |s|
  {
    forall k :: a <= k < b ==> s[k] != '\n'
  }

  /** A gap starting on a character other than a newline is free of newlines iff the rest of it is. */
  lemma NoNewlineStep(s: string, j: int)
    requires 0 <= j < |s| && s[j] != '\n'
    ensures forall k :: j + 1 <= k <= |s| ==> (NoNewline(s, j, k) <==> NoNewline(s, j + 1, k))
  {
  }

  /** A gap starting on a newline (or at the end) cannot be extended. */
  lemma NoNewlineBlocked(s: string, j: int)
    requires 0 <= j <= |s| && (j == |s| || s[j] == '\n')
    ensures forall k :: j < k <= |s| ==> !NoNewline(s, j, k)
  {
    forall k | j < k <= |s| ensures !NoNewline(s, j, k) {
      assert s[j] == '\n';
    }
  }

  /**
   * `.*?tail(\S+)` from index `j`: the gap grows one character at a time and
   * stops at a newline. The result is the index at which `tail(\S+)` matches
   * after the shortest gap, or -1 when no gap works.
   */
  function LazyGap(s: string, j: int, tail: string): (k: int)
    requires 0 <= j <= |s|
    ensures k == -1 <==> forall k' :: j <= k' <= |s| && NoNewline(s, j, k') ==> !TailCaptureAt(s, tail, k')
    ensures k != -1 ==> j <= k <= |s| && NoNewline(s, j, k) && TailCaptureAt(s, tail, k)
    ensures k != -1 ==> forall k' :: j <= k' < k ==> !TailCaptureAt(s, tail, k')
    decreases |s| - j
  {
    if TailCaptureAt(s, tail, j) then
      assert NoNewline(s, j, j);
      j
    else if j < |s| && s[j] != '\n' then
      NoNewlineStep(s, j);
      LazyGap(s, j + 1, tail)
    else
      NoNewlineBlocked(s, j);
      -1
  }

  predicate HeadAt(s: string, head: string, endsWord: bool, i: int) {
    OccursAt(s, head, i) && Boundary(s, i) && (endsWord ==> Boundary(s, i + |head|))
  }

  // ----- prefixed tokens -----

  /** `p` occurs at `i` ignoring ASCII case. */
  predicate PrefixAt(s: string, p: string, i: int) {
    0 <= i && i + |p| <= |s| && Lower(s[i..i + |p|]) == Lower(p)
  }

  /** One character that differs, ignoring case, rules a prefix out. */
  lemma MismatchNotPrefix(s: string, p: string, i: int, k: int)
    requires 0 <= k < |p| && 0 <= i && i + |p| <= |s|
    requires LowerChar(s[i + k]) != LowerChar(p[k])
    ensures !PrefixAt(s, p, i)
  {
    assert Lower(s[i..i + |p|])[k] != Lower(p)[k];
  }

  /** A non-empty run of `[a-zA-Z0-9-]` characters. */
  predicate IsToken(t: string) {
    t != [] && forall k :: 0 <= k < |t| ==> InClass(t[k], TokenChar)
  }

  /** `[\s-]+` can stop right before index `q` and `[a-zA-Z0-9-]` matches there. */
  predicate TokenStart(s: string, j: int, q: int) {
    0 <= j < q < |s| && (forall k :: j <= k < q ==> InClass(s[k], Separator)) && InClass(s[q], TokenChar)
  }

  /** Backtracking of the greedy `[\s-]+`: try to start the token after `k` separators, then `k - 1`, ... */
  function TryToken(s: string, j: int, k: nat): (r: Option<string>)
    requires 0 <= j && j + k <= |s|
    requires forall m :: j <= m < j + k ==> InClass(s[m], Separator)
    ensures r.None? <==> forall q :: j < q <= j + k ==> !TokenStart(s, j, q)
    ensures r.Some? ==>
      exists q :: j < q <= j + k && TokenStart(s, j, q) && r.value == RunText(s, q, TokenChar)
        && forall q' :: q < q' <= j + k ==> !TokenStart(s, j, q')
    ensures r.Some? ==> Contains(s, r.value)
    ensures r.Some? ==> IsToken(r.value)
  {
    if k == 0 then None
    else if j + k < |s| && InClass(s[j + k], TokenChar) then
      assert TokenStart(s, j, j + k);
      Some(RunText(s, j + k, TokenChar))
    else
      TryToken(s, j, k - 1)
  }

  /** `[\s-]+([a-zA-Z0-9-]+)` from index `j`: the token that starts after the most separators possible. */
  function TokenAfter(s: string, j: int): (r: Option<string>)
    requires 0 <= j <= |s|
    ensures r.None? <==> forall q :: !TokenStart(s, j, q)
    ensures r.Some? ==>
      exists q :: TokenStart(s, j, q) && r.value == RunText(s, q, TokenChar)
        && forall q' :: TokenStart(s, j, q') ==> q' <= q
    ensures r.Some? ==> Contains(s, r.value)
    ensures r.Some? ==> IsToken(r.value)
  {
    var n := Run(s, j, Separator);
    forall q | TokenStart(s, j, q) ensures q <= j + n {
      if j + n < |s| {
        assert !InClass(s[j + n], Separator);
      }
    }
    TryToken(s, j, n)
  }

  /** Prefix `p` is found at `i` and a token follows it. */
  predicate PrefixTokenAt(s: string, p: string, i: int) {
    PrefixAt(s, p, i) && TokenAfter(s, i + |p|).Some?
  }

  /** Alternatives in order: the first prefix found at `i` that is followed by a token. */
  function FirstPrefixToken(s: string, i: int, prefixes: seq<string>): (r: Option<string>)
    requires 0 <= i <= |s|
    ensures r.None? <==> forall p :: p in prefixes ==> !PrefixTokenAt(s, p, i)
    ensures r.Some? ==> exists p :: p in prefixes && PrefixTokenAt(s, p, i) && r == TokenAfter(s, i + |p|)
    ensures r.Some? ==> Contains(s, r.value)
    ensures r.Some? ==> IsToken(r.value)
  {
    if prefixes == [] then None
    else if PrefixTokenAt(s, prefixes[0], i) then
      TokenAfter(s, i + |prefixes[0]|)
    else
      var r := FirstPrefixToken(s, i, prefixes[1..]);
      assert forall p :: p in prefixes ==> p == prefixes[0] || p in prefixes[1..];
      r
  }

  // ----- wildcard alternatives -----

  /** `a` matches at `i`, a `.` in `a` matching any character but a newline. */
  predicate WildOccursAt(s: string, a: string, i: int) {
    0 <= i && i + |a| <= |s|
    && forall k :: 0 <= k < |a| ==> if a[k] == '.' then s[i + k] != '\n' else s[i + k] == a[k]
  }

  // ----- one start position, then the leftmost search -----

  /** `\bhead(\b).*?tail(\S+)` started exactly at `i`. */
  function LazyMatchAt(s: string, head: string, endsWord: bool, tail: string, i: int): (r: Option<string>)
    requires 0 <= i <= |s|
    ensures r.Some? ==> Contains(s, r.value)
  {
    if HeadAt(s, head, endsWord, i) then
      var k := LazyGap(s, i + |head|, tail);
      if k == -1 then None
      else
        assert OccursAt(s, RunText(s, k + |tail|, NonSpace), k + |tail|);
        Some(RunText(s, k + |tail|, NonSpace))
    else None
  }

  /** `head(\S+)` started exactly at `i`. */
  function DirectMatchAt(s: string, head: string, i: int): (r: Option<string>)
    requires 0 <= i <= |s|
    ensures r.Some? ==> Contains(s, r.value)
  {
    if TailCaptureAt(s, head, i) then
      assert OccursAt(s, RunText(s, i + |head|, NonSpace), i + |head|);
      Some(RunText(s, i + |head|, NonSpace))
    else None
  }

  /** A shape without a capture group matched: group 1 reads as "". */
  function Matched(s: string): (r: Option<string>)
    ensures r == Some("") && Contains(s, r.value)
  {
    assert OccursAt(s, "", 0);
    Some("")
  }

  /**
   * The match of `p` starting exactly at index `i`: None when there is none,
   * otherwise the text of capture group 1 ("" for shapes without a group).
   */
  function MatchAt(p: Shape, s: string, i: int): (r: Option<string>)
    requires 0 <= i <= |s|
    ensures r.Some? ==> Contains(s, r.value)
  {
    match p
    case Literal(t) =>
      if OccursAt(s, t, i) then Matched(s) else None
    case Word(t) =>
      if WordAt(s, t, i) then Matched(s) else None
    case OptionalLeadWord(lead, t) =>
      if Boundary(s, i) && (WordEndAt(s, lead + t, i) || WordEndAt(s, t, i)) then Matched(s) else None
    case LazyCapture(head, endsWord, tail) =>
      LazyMatchAt(s, head, endsWord, tail, i)
    case DirectCapture(head) =>
      DirectMatchAt(s, head, i)
    case PrefixedToken(prefixes) =>
      FirstPrefixToken(s, i, prefixes)
    case WildcardAlternatives(alts) =>
      if exists a :: a in alts && WildOccursAt(s, a, i) then Matched(s) else None
  }

  /** The outcome of `p` at every start position of `s`, in order. */
  function Matches(p: Shape, s: string): (ms: seq<Option<string>>)
    ensures |ms| == |s| + 1
  {
    seq(|s| + 1, i requires 0 <= i <= |s| => MatchAt(p, s, i))
  }

  /** The first outcome from position `i` on that is a match. */
  function FirstSome(ms: seq<Option<string>>, i: nat): Option<string>
    decreases |ms| - i
  {
    if i >= |ms| then None
    else if ms[i].Some? then ms[i]
    else FirstSome(ms, i + 1)
  }

  /** `re.search(p, s)`: the start positions are tried in order and the first match decides. */
  function Search(p: Shape, s: string): Option<string> {
    FirstSome(Matches(p, s), 0)
  }

  /** `i` is the leftmost start position at which `p` matches. */
  predicate IsLeftmost(p: Shape, s: string, i: int) {
    0 <= i <= |s| && MatchAt(p, s, i).Some? && forall k :: 0 <= k < i ==> MatchAt(p, s, k).None?
  }

  lemma {:induction false} FirstSomeNone(ms: seq<Option<string>>, i: nat)
    ensures FirstSome(ms, i).None? <==> forall j :: i <= j < |ms| ==> ms[j].None?
    decreases |ms| - i
  {
    if i < |ms| {
      FirstSomeNone(ms, i + 1);
    }
  }

  lemma {:induction false} FirstSomeSome(ms: seq<Option<string>>, i: nat) returns (j: nat)
    requires FirstSome(ms, i).Some?
    ensures i <= j < |ms| && ms[j] == FirstSome(ms, i)
    ensures forall k :: i <= k < j ==> ms[k].None?
    decreases |ms| - i
  {
    if ms[i].Some? {
      j := i;
    } else {
      j := FirstSomeSome(ms, i + 1);
    }
  }

  lemma {:induction false} FirstSomeAt(ms: seq<Option<string>>, k: nat, i: nat)
    requires k <= i < |ms| && ms[i].Some?
    requires forall j :: k <= j < i ==> ms[j].None?
    ensures FirstSome(ms, k) == ms[i]
    decreases i - k
  {
    if k < i {
      FirstSomeAt(ms, k + 1, i);
    }
  }

  /** `re.search` finds nothing exactly when the shape matches at no position. */
  lemma SearchNone(p: Shape, s: string)
    ensures Search(p, s).None? <==> forall j :: 0 <= j <= |s| ==> MatchAt(p, s, j).None?
  {
    var ms := Matches(p, s);
    FirstSomeNone(ms, 0);
    assert forall j :: 0 <= j <= |s| ==> ms[j] == MatchAt(p, s, j);
  }

  /** A successful search: the leftmost position that matches, whose match it returns. */
  lemma LeftmostMatch(p: Shape, s: string) returns (i: int)
    requires Search(p, s).Some?
    ensures IsLeftmost(p, s, i) && Search(p, s) == MatchAt(p, s, i)
  {
    var ms := Matches(p, s);
    i := FirstSomeSome(ms, 0);
    forall k | 0 <= k < i ensures MatchAt(p, s, k).None? {
      assert ms[k] == MatchAt(p, s, k);
    }
  }

  /** A successful `re.search` returns the match at the leftmost position that matches. */
  lemma SearchLeftmost(p: Shape, s: string)
    requires Search(p, s).Some?
    ensures exists i :: IsLeftmost(p, s, i) && Search(p, s) == MatchAt(p, s, i)
  {
    var i := LeftmostMatch(p, s);
  }

  /** The search result is exactly the match at the leftmost start position. */
  lemma SearchIsLeftmost(p: Shape, s: string, i: int)
    requires IsLeftmost(p, s, i)
    ensures Search(p, s) == MatchAt(p, s, i)
  {
    var ms := Matches(p, s);
    forall k | 0 <= k < i ensures ms[k].None? {
      assert ms[k] == MatchAt(p, s, k);
    }
    FirstSomeAt(ms, 0, i);
  }

  /** A prefixed-token search captures a token that occurs in the text. */
  lemma PrefixedTokenCapture(prefixes: seq<string>, s: string)
    requires Search(PrefixedToken(prefixes), s).Some?
    ensures IsToken(Search(PrefixedToken(prefixes), s).value)
    ensures Contains(s, Search(PrefixedToken(prefixes), s).value)
  {
    var j := LeftmostMatch(PrefixedToken(prefixes), s);
  }

  /** `re.search('a1|a2|...', s)` finds something exactly when some alternative matches somewhere. */
  lemma WildcardSearch(alts: seq<string>, s: string)
    ensures Search(WildcardAlternatives(alts), s).Some? <==>
      exists a, i :: a in alts && WildOccursAt(s, a, i)
  {
    var p := WildcardAlternatives(alts);
    SearchNone(p, s);
    if exists a, i :: a in alts && WildOccursAt(s, a, i) {
      var a, i :| a in alts && WildOccursAt(s, a, i);
      assert MatchAt(p, s, i).Some?;
    }
  }

  /** An unanchored literal is found exactly when Python's `in` finds it. */
  lemma LiteralSearchIsContains(t: string, s: string)
    ensures Search(Literal(t), s).Some? <==> Contains(s, t)
  {
    SearchNone(Literal(t), s);
    if Contains(s, t) {
      var i :| 0 <= i <= |s| - |t| && OccursAt(s, t, i);
      assert MatchAt(Literal(t), s, i).Some?;
    }
  }

  /** Where `\b(lead)?text\b` matches at `i`, `\btext\b` matches at `i` or right after the lead. */
  lemma OptionalLeadMatchAt(lead: string, t: string, s: string, i: int)
    requires lead != [] && !IsWordChar(lead[|lead| - 1])
    requires t != [] && IsWordChar(t[0])
    requires 0 <= i <= |s| && MatchAt(OptionalLeadWord(lead, t), s, i).Some?
    ensures MatchAt(Word(t), s, i).Some? || (i + |lead| <= |s| && MatchAt(Word(t), s, i + |lead|).Some?)
  {
    if !WordEndAt(s, t, i) {
      var j := i + |lead|;
      assert WordEndAt(s, lead + t, i);
      assert s[i..i + |lead + t|] == lead + t;
      assert s[j..j + |t|] == s[i..i + |lead + t|][|lead|..];
      assert s[j - 1] == s[i..i + |lead + t|][|lead| - 1];
      assert WordAt(s, t, j);
    }
  }

  /**
   * An optional lead ending in a non-word character changes nothing: wherever
   * `\b(lead)?text\b` matches, `\btext\b` matches too (and vice versa).
   */
  lemma OptionalLeadIsRedundant(lead: string, t: string, s: string)
    requires lead != [] && !IsWordChar(lead[|lead| - 1])
    requires t != [] && IsWordChar(t[0])
    ensures Search(OptionalLeadWord(lead, t), s).Some? <==> Search(Word(t), s).Some?
  {
    var p := OptionalLeadWord(lead, t);
    SearchNone(p, s);
    SearchNone(Word(t), s);
    if Search(p, s).Some? {
      var i := LeftmostMatch(p, s);
      OptionalLeadMatchAt(lead, t, s, i);
    }
    if Search(Word(t), s).Some? {
      var i := LeftmostMatch(Word(t), s);
      assert MatchAt(p, s, i).Some?;
    }
  }

  // ----- what a match needs -----

  /** The text every match of a shape contains ("" for the shapes without a fixed part). */
  function Anchor(p: Shape): string {
    match p
    case Literal(t) => t
    case Word(t) => t
    case OptionalLeadWord(_, t) => t
    case LazyCapture(head, _, _) => head
    case DirectCapture(head) => head
    case PrefixedToken(_) => ""
    case WildcardAlternatives(_) => ""
  }

  lemma MatchNeedsAnchor(p: Shape, s: string, i: int)
    requires 0 <= i <= |s| && MatchAt(p, s, i).Some?
    ensures Contains(s, Anchor(p))
  {
    match p
    case Literal(t) =>
      assert OccursAt(s, t, i);
    case Word(t) =>
      assert OccursAt(s, t, i);
    case OptionalLeadWord(lead, t) =>
      OptionalLeadAnchor(lead, t, s, i);
    case LazyCapture(head, _, _) =>
      assert OccursAt(s, head, i);
    case DirectCapture(head) =>
      assert OccursAt(s, head, i);
    case PrefixedToken(_) =>
      assert OccursAt(s, "", 0);
    case WildcardAlternatives(_) =>
      assert OccursAt(s, "", 0);
  }

  lemma OptionalLeadAnchor(lead: string, t: string, s: string, i: int)
    requires 0 <= i <= |s| && (WordEndAt(s, lead + t, i) || WordEndAt(s, t, i))
    ensures Contains(s, t)
  {
    if WordEndAt(s, t, i) {
      assert OccursAt(s, t, i);
    } else {
      var j := i + |lead|;
      assert s[j..j + |t|] == s[i..i + |lead + t|][|lead|..];
      assert OccursAt(s, t, j);
    }
  }

  /** A search can only succeed on a text that contains the shape's anchor. */
  lemma SearchNeedsAnchor(p: Shape, s: string)
    ensures Search(p, s).Some? ==> Contains(s, Anchor(p))
  {
    if Search(p, s).Some? {
      var i := LeftmostMatch(p, s);
      MatchNeedsAnchor(p, s, i);
    }
  }

  /**
   * `head(\S+)` finds a match wherever `head + rest` occurs and `rest` starts
   * with a non-space character.
   */
  lemma LiteralGivesDirectCapture(head: string, rest: string, s: string)
    requires rest != [] && !IsSpace(rest[0])
    ensures Search(Literal(head + rest), s).Some? ==> Search(DirectCapture(head), s).Some?
  {
    if Search(Literal(head + rest), s).Some? {
      var i := LeftmostMatch(Literal(head + rest), s);
      SearchNone(DirectCapture(head), s);
      assert s[i..i + |head|] == s[i..i + |head + rest|][..|head|];
      assert s[i + |head|] == s[i..i + |head + rest|][|head|];
      assert TailCaptureAt(s, head, i);
      assert MatchAt(DirectCapture(head), s, i).Some?;
    }
  }

  /** A run over a class that covers the rest of the text takes all of it. */
  lemma RunToEnd(s: string, j: int, cls: CharClass)
    requires 0 <= j <= |s| && forall k :: j <= k < |s| ==> InClass(s[k], cls)
    ensures RunText(s, j, cls) == s[j..]
  {
  }

  /** A maximal run of non-space characters that starts on one is non-empty and holds no whitespace. */
  lemma NonSpaceRun(s: string, j: int)
    requires 0 <= j < |s| && !IsSpace(s[j])
    ensures RunText(s, j, NonSpace) != []
    ensures forall k :: 0 <= k < |RunText(s, j, NonSpace)| ==> !IsSpace(RunText(s, j, NonSpace)[k])
  {
    var n := Run(s, j, NonSpace);
    assert n >= 1;
    forall k | 0 <= k < n ensures !IsSpace(RunText(s, j, NonSpace)[k]) {
      assert RunText(s, j, NonSpace)[k] == s[j + k] && InClass(s[j + k], NonSpace);
    }
  }

  /**
   * `re.search(r'\bhead.*?tail(\S+)', s)`: the leftmost head, then the
   * first `tail` after it (on the same line) that a non-space character
   * follows, and the captured group is the whole non-space run there.
   */
  lemma LazyCaptureSearch(head: string, endsWord: bool, tail: string, s: string) returns (i: int)
    requires Search(LazyCapture(head, endsWord, tail), s).Some?
    ensures IsLeftmost(LazyCapture(head, endsWord, tail), s, i)
    ensures HeadAt(s, head, endsWord, i)
    ensures LazyGap(s, i + |head|, tail) != -1
    ensures Search(LazyCapture(head, endsWord, tail), s).value
            == RunText(s, LazyGap(s, i + |head|, tail) + |tail|, NonSpace)
  {
    var p := LazyCapture(head, endsWord, tail);
    i := LeftmostMatch(p, s);
    assert IsLeftmost(p, s, i);
  }

  /** `re.search(r'head(\S+)', s)`: the leftmost occurrence of `head` followed by a non-space character. */
  lemma DirectCaptureSearch(head: string, s: string)
    requires Search(DirectCapture(head), s).Some?
    ensures exists i ::
              IsLeftmost(DirectCapture(head), s, i)
              && TailCaptureAt(s, head, i)
              && Search(DirectCapture(head), s).value == RunText(s, i + |head|, NonSpace)
  {
    var p := DirectCapture(head);
    var i := LeftmostMatch(p, s);
    assert IsLeftmost(p, s, i);
  }
}
