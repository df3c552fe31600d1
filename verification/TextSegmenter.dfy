/**
 The segment boundaries of spoken text (text_segmenter.py).

 Case folding, word characters and digits are parameters, so the results hold for any.
 Main results: `StreamIsSpoken` (nothing visible is lost or reordered, every
 segment is normalized, non-empty and within the hard limit), `BufferStaysSmall` and
 `CutInsideWord`.
 */
module TextSegmenter {
  import opened Options
  import opened Segmentation

  // ---- Characters ----

  predicate IsSpace(c: char) {
    || '\t' <= c <= '\r' || '\U{1c}' <= c <= ' ' || c == '\U{85}' || c == '\U{a0}' || c == '\U{1680}'
    || '\U{2000}' <= c <= '\U{200a}' || c == '\U{2028}' || c == '\U{2029}' || c == '\U{202f}'
    || c == '\U{205f}' || c == '\U{3000}'
  }

  predicate IsPunctuation(c: char) {
    c == '.' || c == '!' || c == '?' || c == ':' || c == ';'
  }

  predicate IsCloser(c: char) {
    c == '"' || c == '\'' || c == ')' || c == '\U{bb}' || c == '\U{201c}' || c == '\U{201d}'
  }

  predicate IsBlank(c: char) {
    c == ' ' || c == '\n' || c == '\t'
  }

  predicate IsLetter(c: char) {
    'A' <= c <= 'Z' || 'a' <= c <= 'z'
    || '\U{c0}' <= c <= '\U{d6}' || '\U{d8}' <= c <= '\U{f6}' || '\U{f8}' <= c <= '\U{ff}'
  }

  const ABBREVIATIONS: set<string> := {
    "bzw.", "ca.", "d.h.", "dr.", "nr.", "prof.", "u.a.", "usw.", "z.b.",
    "e.g.", "i.e.", "mr.", "mrs.", "ms.",
    "env.", "mme.", "mlles.", "m.",
    "dott.", "sig.", "sig.ra.", "sig.na.",
    "etc."
  }

  // ---- Words and normal form ----

  /** Adds a character to the last word, or begins a new one. */
  function Glue(words: seq<string>, inside: bool, c: char): seq<string> {
    if inside && words != [] then words[..|words| - 1] + [words[|words| - 1] + [c]] else words + [[c]]
  }

  predicate EndsInWord(s: string) {
    s != "" && !IsSpace(s[|s| - 1])
  }

  /** Python's `split()`: the maximal runs without whitespace. */
  function Words(s: string): (words: seq<string>)
    ensures EndsInWord(s) ==> words != []
  {
    if s == "" then []
    else
      var rest, c := s[..|s| - 1], s[|s| - 1];
      if IsSpace(c) then Words(rest) else Glue(Words(rest), EndsInWord(rest), c)
  }

  function Join(words: seq<string>): string {
    if words == [] then ""
    else if |words| == 1 then words[0]
    else Join(words[..|words| - 1]) + " " + words[|words| - 1]
  }

  function Normalize(s: string): string {
    Join(Words(s))
  }

  /** The text without its whitespace. */
  function Visible(s: string): string {
    if s == "" then "" else (if IsSpace(s[0]) then "" else [s[0]]) + Visible(s[1..])
  }

  /** The only whitespace is single spaces between words. */
  predicate Tidy(s: string) {
    && (forall i :: 0 <= i < |s| && IsSpace(s[i]) ==> s[i] == ' ' && 0 < i < |s| - 1)
    && (forall i, j :: 0 <= i < j < |s| && IsSpace(s[i]) && IsSpace(s[j]) ==> i + 1 < j)
  }

  lemma WordsSnoc(s: string, c: char)
    ensures Words(s + [c]) == if IsSpace(c) then Words(s) else Glue(Words(s), EndsInWord(s), c)
  {
    assert (s + [c])[..|s|] == s;
  }

  /** A text without whitespace is one word. */
  lemma {:induction false} OneWord(s: string)
    requires s != "" && forall i :: 0 <= i < |s| ==> !IsSpace(s[i])
    ensures Words(s) == [s]
    decreases |s|
  {
    var rest, c := s[..|s| - 1], s[|s| - 1];
    assert s == rest + [c];
    if rest == "" {
      assert s == [c] && Words("") == [];
    } else {
      OneWord(rest);
      assert Glue([rest], true, c) == [s];
    }
  }

  lemma GlueBehind(a: seq<string>, b: seq<string>, inside: bool, c: char)
    requires inside ==> b != []
    ensures Glue(a + b, inside, c) == a + Glue(b, inside, c)
  {
  }

  /** Whitespace separates the words on its two sides. */
  lemma {:induction false} SplitAtSpace(a: string, c: char, b: string)
    requires IsSpace(c)
    ensures Words(a + [c] + b) == Words(a) + Words(b)
    decreases |b|
  {
    var left := a + [c];
    WordsSnoc(a, c);
    if b == "" {
      assert left + b == left;
    } else {
      var rest, d := b[..|b| - 1], b[|b| - 1];
      SplitAtSpace(a, c, rest);
      assert left + b == (left + rest) + [d] && b == rest + [d];
      WordsSnoc(left + rest, d);
      WordsSnoc(rest, d);
      assert EndsInWord(left + rest) == EndsInWord(rest);
      if !IsSpace(d) {
        GlueBehind(Words(a), Words(rest), EndsInWord(rest), d);
      }
    }
  }

  lemma JoinLast(words: seq<string>, c: char)
    requires words != []
    ensures Join(words[..|words| - 1] + [words[|words| - 1] + [c]]) == Join(words) + [c]
  {
    var more := words[..|words| - 1] + [words[|words| - 1] + [c]];
    assert more[..|more| - 1] == words[..|words| - 1];
  }

  lemma JoinNew(words: seq<string>, c: char)
    ensures Join(words + [[c]]) == (if words == [] then "" else Join(words) + " ") + [c]
  {
    assert (words + [[c]])[..|words|] == words;
  }

  /** Normal forms grow one character at a time. */
  lemma NormalizeSnoc(s: string)
    requires s != ""
    ensures var rest, c := s[..|s| - 1], s[|s| - 1];
            Normalize(s) == if IsSpace(c) then Normalize(rest)
                            else if rest != "" && !IsSpace(rest[|rest| - 1]) then Normalize(rest) + [c]
                            else (if Words(rest) == [] then "" else Normalize(rest) + " ") + [c]
  {
    var rest, c := s[..|s| - 1], s[|s| - 1];
    if !IsSpace(c) {
      if rest != "" && !IsSpace(rest[|rest| - 1]) {
        JoinLast(Words(rest), c);
      } else {
        JoinNew(Words(rest), c);
      }
    }
  }

  lemma {:induction false} VisibleConcat(a: string, b: string)
    ensures Visible(a + b) == Visible(a) + Visible(b)
    decreases |a|
  {
    if a == "" {
      assert a + b == b;
    } else {
      assert (a + b)[1..] == a[1..] + b;
      VisibleConcat(a[1..], b);
    }
  }

  lemma {:induction false} NormalEnds(s: string)
    ensures Normalize(s) != "" ==> !IsSpace(Normalize(s)[|Normalize(s)| - 1])
    ensures Words(s) == [] <==> Normalize(s) == ""
    decreases |s|
  {
    if s == "" {
    } else {
      NormalEnds(s[..|s| - 1]);
      NormalizeSnoc(s);
    }
  }

  /** A reading of texts part by part that does not see whitespace. */
  ghost predicate IgnoresSpace(v: string -> string) {
    && v("") == ""
    && (forall a, b {:trigger v(a + b)} :: v(a + b) == v(a) + v(b))
    && (forall c {:trigger v([c])} :: IsSpace(c) ==> v([c]) == "")
  }

  lemma ReadAppend(v: string -> string, s: string, c: char)
    requires IgnoresSpace(v)
    ensures v(s + [c]) == if IsSpace(c) then v(s) else v(s) + v([c])
    ensures v(s + " " + [c]) == v(s) + v([c])
  {
    assert v(s + [c]) == v(s) + v([c]);
    assert v(s + " " + [c]) == v(s + " ") + v([c]);
    assert v(s + [' ']) == v(s) + v([' ']);
  }

  /** Normalizing changes nothing for such a reading. */
  lemma {:induction false} NormalizeKeeps(v: string -> string, s: string)
    requires IgnoresSpace(v)
    ensures v(Normalize(s)) == v(s)
    decreases |s|
  {
    if s == "" {
    } else {
      var rest, c := s[..|s| - 1], s[|s| - 1];
      NormalizeKeeps(v, rest);
      assert s == rest + [c];
      ReadAppend(v, rest, c);
      ReadAppend(v, Normalize(rest), c);
      NormalEnds(rest);
      NormalizeSnoc(s);
    }
  }

  lemma VisibleIgnoresSpace()
    ensures IgnoresSpace(s => Visible(s))
  {
    var v := (s: string) => Visible(s);
    forall a, b
      ensures v(a + b) == v(a) + v(b)
    {
      VisibleConcat(a, b);
    }
    assert forall c :: [c][1..] == "";
  }

  /** Normalizing never lengthens a text, and drops whitespace from its end. */
  lemma {:induction false} NormalizeShortens(s: string)
    ensures |Normalize(s)| <= |s|
    ensures s != "" && IsSpace(s[|s| - 1]) ==> |Normalize(s)| < |s|
    decreases |s|
  {
    if s == "" {
    } else {
      NormalizeShortens(s[..|s| - 1]);
      NormalizeSnoc(s);
    }
  }

  lemma {:induction false} NormalIsTidy(s: string)
    ensures Tidy(Normalize(s))
    decreases |s|
  {
    if s == "" {
    } else {
      NormalIsTidy(s[..|s| - 1]);
      NormalEnds(s[..|s| - 1]);
      NormalizeSnoc(s);
    }
  }

  /** Normalizing twice is normalizing once. */
  lemma {:induction false} NormalizeTwice(s: string)
    ensures Normalize(Normalize(s)) == Normalize(s)
    decreases |s|
  {
    if s == "" {
    } else {
      var rest, c := s[..|s| - 1], s[|s| - 1];
      NormalizeTwice(rest);
      NormalEnds(rest);
      NormalizeSnoc(s);
      var before := Normalize(rest);
      NormalEnds(before);
      if !IsSpace(c) {
        NormalizeAppend(before, c);
        NormalizeAppend(before, ' ');
        NormalizeAppend(before + " ", c);
      }
    }
  }

  lemma NormalizeAppend(s: string, c: char)
    ensures Normalize(s + [c]) == if IsSpace(c) then Normalize(s)
                                  else if s != "" && !IsSpace(s[|s| - 1]) then Normalize(s) + [c]
                                  else (if Words(s) == [] then "" else Normalize(s) + " ") + [c]
    ensures IsSpace(c) ==> Words(s + [c]) == Words(s)
  {
    assert (s + [c])[..|s|] == s;
    NormalizeSnoc(s + [c]);
  }

  // ---- Boundaries ----

  function SkipClosers(b: string, i: nat): (j: nat)
    requires i <= |b|
    ensures i <= j <= |b| && (forall k :: i <= k < j ==> IsCloser(b[k])) && (j < |b| ==> !IsCloser(b[j]))
    decreases |b| - i
  {
    if i < |b| && IsCloser(b[i]) then SkipClosers(b, i + 1) else i
  }

  function SkipSpaces(b: string, i: nat): (j: nat)
    requires i <= |b|
    ensures i <= j <= |b| && (forall k :: i <= k < j ==> IsSpace(b[k])) && (j < |b| ==> !IsSpace(b[j]))
    decreases |b| - i
  {
    if i < |b| && IsSpace(b[i]) then SkipSpaces(b, i + 1) else i
  }

  function Strip(s: string): string {
    var i := SkipSpaces(s, 0);
    StripRight(s[i..])
  }

  function StripRight(s: string): string {
    if s != "" && IsSpace(s[|s| - 1]) then StripRight(s[..|s| - 1]) else s
  }

  /** What the source asks of Unicode: lower case, and which characters are word characters and digits. */
  datatype Alphabet = Alphabet(lower: string -> string, isWord: char -> bool, isDigit: char -> bool)

  /** The text without a final line break, before which a pattern may also end. */
  function Chopped(s: string): string {
    if s != "" && s[|s| - 1] == '\n' then s[..|s| - 1] else s
  }

  /** The text ends in two or more single letters, each followed by a period. */
  predicate InitialsAtEnd(alphabet: Alphabet, s: string) {
    var n := |s|;
    && n >= 4 && s[n - 1] == '.' && IsLetter(s[n - 2]) && s[n - 3] == '.' && IsLetter(s[n - 4])
    && (n > 4 ==> !alphabet.isWord(s[n - 5]))
  }

  predicate EndsInInitials(alphabet: Alphabet, s: string) {
    InitialsAtEnd(alphabet, s) || InitialsAtEnd(alphabet, Chopped(s))
  }

  predicate AllDigits(alphabet: Alphabet, s: string) {
    forall k :: 0 <= k < |s| ==> alphabet.isDigit(s[k])
  }

  predicate NumberAt(alphabet: Alphabet, s: string, i: nat) {
    0 < i < |s| - 1 && s[i] == '.' && alphabet.isDigit(s[i - 1]) && AllDigits(alphabet, s[i + 1..])
  }

  /** The text ends in digits, a period and digits. */
  predicate NumberAtEnd(alphabet: Alphabet, s: string) {
    exists i :: 0 <= i < |s| && NumberAt(alphabet, s, i)
  }

  predicate EndsInNumber(alphabet: Alphabet, s: string) {
    NumberAtEnd(alphabet, s) || NumberAtEnd(alphabet, Chopped(s))
  }

  /** The closing run of this text is a period that belongs to an abbreviation. */
  predicate Abbreviated(alphabet: Alphabet, raw: string) {
    var candidate := alphabet.lower(Strip(raw));
    var words := Words(candidate);
    || (words != [] && words[|words| - 1] in ABBREVIATIONS)
    || EndsInNumber(alphabet, candidate)
    || EndsInInitials(alphabet, candidate)
  }

  /** Decides whether a closing run that ends in a period belongs to an abbreviation. */
  type Script = string -> bool

  /** The end of the closing run that starts at `p`: punctuation, closers, then whitespace or the end. */
  function MatchAt(b: string, p: nat): (end: Option<nat>)
    requires p < |b|
    ensures end.Some? ==> p < end.value <= |b| && (end.value < |b| ==> IsSpace(b[end.value - 1]))
    ensures end.Some? ==> forall k :: p < k < end.value ==> IsCloser(b[k]) || IsSpace(b[k])
  {
    if !IsPunctuation(b[p]) then None
    else
      var closed := SkipClosers(b, p + 1);
      if closed < |b| && !IsSpace(b[closed]) then None else Some(SkipSpaces(b, closed))
  }

  predicate EndsRun(s: string) {
    s != "" && (IsPunctuation(s[|s| - 1]) || IsCloser(s[|s| - 1]))
  }

  predicate KeepsEnd(alphabet: Alphabet, s: string) {
    var t := alphabet.lower(s);
    EndsRun(s) ==> t != "" && t[|t| - 1] == s[|s| - 1]
  }

  predicate NoDigit(alphabet: Alphabet, c: char) {
    IsPunctuation(c) || IsCloser(c) ==> !alphabet.isDigit(c)
  }

  /** Punctuation and closers are no digits, and lower case keeps one that ends a text. */
  ghost predicate KeepsEnds(alphabet: Alphabet) {
    (forall c :: NoDigit(alphabet, c)) && forall s :: KeepsEnd(alphabet, s)
  }

  lemma {:induction false} StripRightEnds(s: string, n: nat)
    requires 0 < n <= |s| && !IsSpace(s[n - 1]) && forall k :: n <= k < |s| ==> IsSpace(s[k])
    ensures StripRight(s) == s[..n]
    decreases |s|
  {
    if n == |s| {
      assert s[..n] == s;
    } else {
      var front := s[..|s| - 1];
      StripRightEnds(front, n);
      assert front[..n] == s[..n];
    }
  }

  lemma StripEnds(raw: string, p: nat, n: nat)
    requires p < n <= |raw| && !IsSpace(raw[p]) && !IsSpace(raw[n - 1])
    requires forall k :: n <= k < |raw| ==> IsSpace(raw[k])
    ensures Strip(raw) != "" && Strip(raw)[|Strip(raw)| - 1] == raw[n - 1]
  {
    var i := SkipSpaces(raw, 0);
    assert i <= p;
    StripRightEnds(raw[i..], n - i);
  }

  /** The stripped text of a closing run ends in its punctuation or in a closer. */
  lemma RunEnds(b: string, p: nat)
    requires p < |b| && MatchAt(b, p).Some?
    ensures EndsRun(Strip(b[..MatchAt(b, p).value]))
  {
    var raw, closed := b[..MatchAt(b, p).value], SkipClosers(b, p + 1);
    assert raw[p] == b[p] && raw[closed - 1] == b[closed - 1];
    StripEnds(raw, p, closed);
  }

  lemma NoNumberAtEnd(alphabet: Alphabet, s: string)
    requires s != "" && !alphabet.isDigit(s[|s| - 1])
    ensures !NumberAtEnd(alphabet, s)
  {
    forall i | 0 <= i < |s| - 1
      ensures !NumberAt(alphabet, s, i)
    {
      assert s[i + 1..][|s| - i - 2] == s[|s| - 1];
    }
  }

  /** The test for a number in front of the boundary never succeeds. */
  lemma NumberNeverFires(alphabet: Alphabet, b: string, p: nat)
    requires KeepsEnds(alphabet) && p < |b| && MatchAt(b, p).Some?
    ensures !EndsInNumber(alphabet, alphabet.lower(Strip(b[..MatchAt(b, p).value])))
  {
    var stripped := Strip(b[..MatchAt(b, p).value]);
    RunEnds(b, p);
    assert KeepsEnd(alphabet, stripped) && NoDigit(alphabet, stripped[|stripped| - 1]);
    NoNumberAtEnd(alphabet, alphabet.lower(stripped));
  }

  /** The end of the sentence that the punctuation at `p` closes, if it closes one. */
  function EndAt(script: Script, b: string, p: nat): (end: Option<nat>)
    requires p < |b|
    ensures end.Some? ==> end == MatchAt(b, p)
  {
    var end := MatchAt(b, p);
    if end.Some? && b[p] == '.' && script(b[..end.value]) then None else end
  }

  /** The first result of a search from `p` below `n`. */
  function FirstSome(at: nat -> Option<nat>, n: nat, p: nat): Option<nat>
    decreases n - p
  {
    if p >= n then None else if at(p).Some? then at(p) else FirstSome(at, n, p + 1)
  }

  /** A search finds the first position that has a result. */
  lemma {:induction false} FirstSomeIsFirst(at: nat -> Option<nat>, n: nat, p: nat)
    ensures FirstSome(at, n, p).None? ==> forall k :: p <= k < n ==> at(k).None?
    ensures FirstSome(at, n, p).Some? ==>
              exists q: nat {:trigger at(q)} :: p <= q < n && at(q) == FirstSome(at, n, p)
                                                && forall k :: p <= k < q ==> at(k).None?
    decreases n - p
  {
    if p < n && at(p).None? {
      FirstSomeIsFirst(at, n, p + 1);
      if FirstSome(at, n, p + 1).Some? {
        var q: nat :| p + 1 <= q < n && at(q) == FirstSome(at, n, p + 1) && forall k :: p + 1 <= k < q ==> at(k).None?;
        assert at(q) == FirstSome(at, n, p) && forall k :: p <= k < q ==> at(k).None?;
      }
    }
  }

  lemma {:induction false} SkipNone(at: nat -> Option<nat>, n: nat, p: nat, end: nat)
    requires p <= end && forall k :: p <= k < end ==> at(k).None?
    ensures FirstSome(at, n, p) == FirstSome(at, n, end)
    decreases end - p
  {
    if p < end && p < n {
      SkipNone(at, n, p + 1, end);
    }
  }

  function Ends(script: Script, b: string): nat -> Option<nat> {
    (k: nat) => if k < |b| then EndAt(script, b, k) else None
  }

  /** The end of the first sentence that closes at `p` or later. */
  function FirstEnd(script: Script, b: string, p: nat): (end: Option<nat>)
    requires p <= |b|
    ensures end.Some? ==> p < end.value <= |b| && (end.value < |b| ==> IsSpace(b[end.value - 1]))
  {
    FirstSomeIsFirst(Ends(script, b), |b|, p);
    FirstSome(Ends(script, b), |b|, p)
  }

  lemma InsideMatch(script: Script, b: string, p: nat, k: nat)
    requires p < k < |b| && MatchAt(b, p).Some? && k < MatchAt(b, p).value
    ensures EndAt(script, b, k).None?
  {
    assert IsCloser(b[k]) || IsSpace(b[k]);
  }

  /** A search resumes behind a run that closed no sentence. */
  lemma StepOver(script: Script, b: string, p: nat)
    requires p < |b| && EndAt(script, b, p).None?
    ensures FirstEnd(script, b, p) == FirstEnd(script, b, if MatchAt(b, p).Some? then MatchAt(b, p).value else p + 1)
  {
    var next := if MatchAt(b, p).Some? then MatchAt(b, p).value else p + 1;
    forall k | p <= k < next
      ensures Ends(script, b)(k).None?
    {
      if k > p {
        InsideMatch(script, b, p, k);
      }
    }
    SkipNone(Ends(script, b), |b|, p, next);
  }

  // ---- What ends a sentence ----

  /** Punctuation at `p`, closers up to `c`, whitespace up to `end`; then something else, or nothing. */
  predicate ClosingRun(b: string, p: nat, c: nat, end: nat) {
    && p < c <= end <= |b|
    && (b[p] == '.' || b[p] == '!' || b[p] == '?' || b[p] == ':' || b[p] == ';')
    && (forall k :: p < k < c ==> IsCloser(b[k]))
    && (forall k :: c <= k < end ==> IsSpace(b[k]))
    && (end == |b| || (c < end && !IsSpace(b[end])))
    && (end == |b| && c < end ==> IsSpace(b[c]))
    && (c < |b| ==> IsSpace(b[c]))
  }

  lemma {:induction false} SkipClosersIs(b: string, i: nat, c: nat)
    requires i <= c <= |b| && (forall k :: i <= k < c ==> IsCloser(b[k])) && (c < |b| ==> !IsCloser(b[c]))
    ensures SkipClosers(b, i) == c
    decreases c - i
  {
    if i == c {
    } else {
      SkipClosersIs(b, i + 1, c);
    }
  }

  lemma {:induction false} SkipSpacesIs(b: string, i: nat, e: nat)
    requires i <= e <= |b| && (forall k :: i <= k < e ==> IsSpace(b[k])) && (e < |b| ==> !IsSpace(b[e]))
    ensures SkipSpaces(b, i) == e
    decreases e - i
  {
    if i == e {
    } else {
      SkipSpacesIs(b, i + 1, e);
    }
  }

  lemma RunIsMatched(b: string, p: nat, c: nat, end: nat)
    requires ClosingRun(b, p, c, end)
    ensures MatchAt(b, p) == Some(end)
  {
    SkipClosersIs(b, p + 1, c);
    SkipSpacesIs(b, c, end);
  }

  lemma MatchIsRun(b: string, p: nat)
    requires p < |b| && MatchAt(b, p).Some?
    ensures ClosingRun(b, p, SkipClosers(b, p + 1), MatchAt(b, p).value)
  {
  }

  /** A closing run ends a sentence unless it begins with the period of an abbreviation. */
  predicate Closes(script: Script, b: string, p: nat, c: nat, end: nat) {
    ClosingRun(b, p, c, end) && !(b[p] == '.' && script(b[..end]))
  }

  lemma ClosesIsEnd(script: Script, b: string, p: nat, c: nat, end: nat)
    requires ClosingRun(b, p, c, end)
    ensures EndAt(script, b, p) == if Closes(script, b, p, c, end) then Some(end) else None
  {
    RunIsMatched(b, p, c, end);
  }

  /** The end of the first sentence is that of the first closing run that ends one. */
  lemma SentenceEndExactly(script: Script, b: string, p: nat, c: nat, end: nat)
    requires Closes(script, b, p, c, end)
    requires forall q: nat, d: nat, e: nat :: q < p ==> !Closes(script, b, q, d, e)
    ensures FirstEnd(script, b, 0) == Some(end)
  {
    ClosesIsEnd(script, b, p, c, end);
    forall q: nat | q < p
      ensures Ends(script, b)(q).None?
    {
      if MatchAt(b, q).Some? {
        MatchIsRun(b, q);
        ClosesIsEnd(script, b, q, SkipClosers(b, q + 1), MatchAt(b, q).value);
      }
    }
    SkipNone(Ends(script, b), |b|, 0, p);
    assert Ends(script, b)(p) == Some(end);
  }

  lemma NoSentenceEnd(script: Script, b: string)
    requires forall q: nat, d: nat, e: nat :: !Closes(script, b, q, d, e)
    ensures FirstEnd(script, b, 0).None?
  {
    forall q: nat | q < |b|
      ensures Ends(script, b)(q).None?
    {
      if MatchAt(b, q).Some? {
        MatchIsRun(b, q);
        ClosesIsEnd(script, b, q, SkipClosers(b, q + 1), MatchAt(b, q).value);
      }
    }
    SkipNone(Ends(script, b), |b|, 0, |b|);
  }

  /** The last word of the folded text decides, and then only initials or a number at the end. */
  lemma LastWordDecides(alphabet: Alphabet, raw: string, head: string, c: char, w: string)
    requires alphabet.lower(Strip(raw)) == head + [c] + w && IsSpace(c)
    requires w != "" && forall i :: 0 <= i < |w| ==> !IsSpace(w[i])
    ensures Abbreviated(alphabet, raw) <==>
              || w in ABBREVIATIONS
              || EndsInNumber(alphabet, head + [c] + w)
              || EndsInInitials(alphabet, head + [c] + w)
  {
    SplitAtSpace(head, c, w);
    OneWord(w);
  }

  /** Initials: two single letters, each followed by a period, not inside a longer word. */
  lemma InitialsAre(alphabet: Alphabet, head: string, a: char, b: char)
    requires IsLetter(a) && IsLetter(b) && (head != "" ==> !alphabet.isWord(head[|head| - 1]))
    ensures EndsInInitials(alphabet, head + [a, '.', b, '.'])
  {
    var s := head + [a, '.', b, '.'];
    assert InitialsAtEnd(alphabet, s);
  }

  /** The last occurrence of a character, or -1. */
  function RFind(s: string, c: char): (i: int)
    ensures -1 <= i < |s| && (i >= 0 ==> s[i] == c) && forall k :: i < k < |s| ==> s[k] != c
  {
    if s == "" then -1 else if s[|s| - 1] == c then |s| - 1 else RFind(s[..|s| - 1], c)
  }

  function Max(a: int, b: int): int {
    if a < b then b else a
  }

  /** Just behind the last blank among the first `limit + 1` characters. */
  function WordBoundary(b: string, limit: nat): (end: Option<nat>)
    ensures end.Some? ==> 0 < end.value <= |b| && end.value <= limit + 1 && IsBlank(b[end.value - 1])
    ensures end.Some? ==> forall k :: end.value <= k < |b| && k <= limit ==> !IsBlank(b[k])
    ensures end.None? ==> forall k :: 0 <= k < |b| && k <= limit ==> !IsBlank(b[k])
  {
    var prefix := if limit + 1 < |b| then b[..limit + 1] else b;
    var blank := Max(Max(RFind(prefix, ' '), RFind(prefix, '\n')), RFind(prefix, '\t'));
    if blank >= 0 then Some(blank + 1) else None
  }

  // ---- Limits ----

  datatype Limits = Limits(first: nat, next: nat, hardMax: nat) {
    predicate Allowed() {
      32 <= first <= 160 && 64 <= next <= 200 && 80 <= hardMax <= 220 && first <= next <= hardMax
    }
  }

  type Settings = l: Limits | l.Allowed() witness Limits(72, 140, 160)

  datatype LimitError = FirstRange | NextRange | HardRange | FirstAboveNext | NextAboveHard

  /** The checks of the source, in its order. */
  function Configure(first: int, next: int, hardMax: int): (r: Result<Settings, LimitError>)
    ensures r.Ok? <==> first >= 0 && next >= 0 && hardMax >= 0 && Limits(first, next, hardMax).Allowed()
    ensures r.Ok? ==> r.value == Limits(first, next, hardMax)
  {
    if !(32 <= first <= 160) then Err(FirstRange)
    else if !(64 <= next <= 200) then Err(NextRange)
    else if !(80 <= hardMax <= 220) then Err(HardRange)
    else if first > next then Err(FirstAboveNext)
    else if next > hardMax then Err(NextAboveHard)
    else Ok(Limits(first, next, hardMax))
  }

  // ---- Cutting ----

  function Target(l: Settings, emitted: nat): nat {
    if emitted == 0 then l.first else l.next
  }

  function LengthBoundary(l: Settings, b: string, emitted: nat): Option<nat> {
    if |b| <= Target(l, emitted) then None
    else if WordBoundary(b, Target(l, emitted)).Some? then WordBoundary(b, Target(l, emitted))
    else if |b| > l.hardMax then Some(l.hardMax)
    else None
  }

  /** Where the buffer is cut next while text is still arriving. */
  function Cut(l: Settings, script: Script, b: string, emitted: nat): (k: Option<nat>)
    ensures k.Some? ==> 0 < k.value <= |b|
    ensures k.Some? ==> k.value <= l.hardMax || (k.value == l.hardMax + 1 && IsSpace(b[k.value - 1]))
    ensures k.None? ==> |b| <= l.hardMax
  {
    var sentence := FirstEnd(script, b, 0);
    if sentence.Some? && sentence.value <= l.hardMax then sentence else LengthBoundary(l, b, emitted)
  }

  /** A word is cut in two only when it is longer than the limits allow. */
  lemma CutInsideWord(l: Settings, script: Script, b: string, emitted: nat)
    requires var k := Cut(l, script, b, emitted); k.Some? && k.value < |b| && !IsSpace(b[k.value - 1])
    ensures Cut(l, script, b, emitted) == Some(l.hardMax)
    ensures forall i :: 0 <= i <= Target(l, emitted) ==> !IsBlank(b[i])
  {
    if FirstEnd(script, b, 0).None? || FirstEnd(script, b, 0).value > l.hardMax {
      assert WordBoundary(b, Target(l, emitted)).None?;
    }
  }

  /** A sentence end within the hard maximum is always taken. */
  lemma SentenceFirst(l: Settings, script: Script, b: string, emitted: nat)
    requires FirstEnd(script, b, 0).Some? && FirstEnd(script, b, 0).value <= l.hardMax
    ensures Cut(l, script, b, emitted) == FirstEnd(script, b, 0)
  {
  }

  /** A short text without a sentence end waits; one without a blank waits up to the hard maximum. */
  lemma ShortTextWaits(l: Settings, script: Script, b: string, emitted: nat)
    requires FirstEnd(script, b, 0).None?
    requires var target := if emitted == 0 then l.first else l.next;
             |b| <= target || (|b| <= l.hardMax && forall i :: 0 <= i <= target ==> !IsBlank(b[i]))
    ensures Cut(l, script, b, emitted).None?
  {
  }

  /** Without a sentence end in reach, text with a blank is cut to the target: a short first one, then a longer one. */
  lemma CutByTarget(l: Settings, script: Script, b: string, emitted: nat, blank: nat)
    requires FirstEnd(script, b, 0).None? || FirstEnd(script, b, 0).value > l.hardMax
    requires var target := if emitted == 0 then l.first else l.next; blank <= target < |b|
    requires IsBlank(b[blank])
    ensures var target := if emitted == 0 then l.first else l.next;
            var k := Cut(l, script, b, emitted);
            k.Some? && blank < k.value && |Normalize(b[..k.value])| <= target
  {
    var target := if emitted == 0 then l.first else l.next;
    var k := WordBoundary(b, target).value;
    CutAtBlank(b, target, k);
    assert Cut(l, script, b, emitted) == Some(k);
  }

  lemma CutAtBlank(b: string, limit: nat, k: nat)
    requires WordBoundary(b, limit) == Some(k)
    ensures |Normalize(b[..k])| <= limit
  {
    NormalizeShortens(b[..k]);
  }

  /** Where an overlong remainder is cut at the end of the text. */
  function FlushCut(l: Settings, b: string): (k: nat)
    requires l.hardMax < |b|
    ensures 0 < k <= |b| && (k <= l.hardMax || (k == l.hardMax + 1 && IsSpace(b[k - 1])))
  {
    if WordBoundary(b, l.hardMax).Some? then WordBoundary(b, l.hardMax).value else l.hardMax
  }

  /** A flushed piece ends behind the last blank in reach, and at the hard maximum when there is none. */
  lemma FlushByWord(l: Settings, b: string)
    requires l.hardMax < |b|
    ensures var k := FlushCut(l, b);
            && (forall i :: k <= i <= l.hardMax ==> !IsBlank(b[i]))
            && (IsBlank(b[k - 1]) || (k == l.hardMax && forall i :: 0 <= i <= l.hardMax ==> !IsBlank(b[i])))
  {
  }

  /** The rules of the source. */
  function Rulebook(l: Settings, alphabet: Alphabet): Cutter {
    RulesAreLawful(l, raw => Abbreviated(alphabet, raw));
    RulesFor(l, raw => Abbreviated(alphabet, raw))
  }

  function RulesFor(l: Settings, script: Script): Rules {
    Rules(l.hardMax, (b, n) => Cut(l, script, b, n), b => if l.hardMax < |b| then FlushCut(l, b) else 0,
          s => Normalize(s))
  }

  /** A cut of at most `hardMax` characters, or one more when the last is whitespace, fits the limit. */
  lemma CutFits(l: Settings, b: string, k: nat)
    requires 0 < k <= |b| && (k <= l.hardMax || (k == l.hardMax + 1 && IsSpace(b[k - 1])))
    ensures |Normalize(b[..k])| <= l.hardMax
  {
    NormalizeShortens(b[..k]);
  }

  lemma RulesAreLawful(l: Settings, script: Script)
    ensures Lawful(RulesFor(l, script))
  {
    forall b: string, n: nat
      ensures match Cut(l, script, b, n)
              case None => |b| <= l.hardMax
              case Some(k) => 0 < k <= |b| && |Normalize(b[..k])| <= l.hardMax
    {
      var k := Cut(l, script, b, n);
      if k.Some? {
        CutFits(l, b, k.value);
      }
    }
    forall s: string
      ensures |Normalize(s)| <= |s| && Normalize(Normalize(s)) == Normalize(s)
      ensures |s| > l.hardMax ==> |Normalize(s[..FlushCut(l, s)])| <= l.hardMax
    {
      NormalizeShortens(s);
      NormalizeTwice(s);
      if |s| > l.hardMax {
        CutFits(l, s, FlushCut(l, s));
      }
    }
  }

  lemma VisibleIsReading(l: Settings, alphabet: Alphabet)
    ensures Reading(Rulebook(l, alphabet), s => Visible(s))
  {
    VisibleIgnoresSpace();
    forall s: string
      ensures Visible(Normalize(s)) == Visible(s)
    {
      NormalizeKeeps(t => Visible(t), s);
    }
  }

  /**
   However a text is cut into parts, its segments carry exactly its visible characters
   in order, each is normalized, non-empty and within the hard limit, and the flush
   adds at most one.
   */
  lemma StreamIsSpoken(l: Settings, alphabet: Alphabet, parts: seq<string>)
    ensures var c := Rulebook(l, alphabet);
            var (fed, end) := FeedParts(c, Progress("", 0), parts);
            var (last, _) := FlushFrom(c, end);
            && Visible(Concat(fed + last)) == Visible(Concat(parts))
            && AllSpeakable(c, fed + last) && |last| <= 1
  {
    var c := Rulebook(l, alphabet);
    var (fed, end) := FeedParts(c, Progress("", 0), parts);
    VisibleIsReading(l, alphabet);
    StreamIsRead(s => Visible(s), c, parts);
    PartsAreSpeakable(c, Progress("", 0), parts);
    FlushCuts(c, end);
    FlushAddsOne(c, end);
    AllAppend(c, fed, FlushFrom(c, end).0);
  }

  /** After any feeds at most `hardMax` characters wait. */
  lemma BufferStaysSmall(l: Settings, alphabet: Alphabet, parts: seq<string>)
    ensures var (fed, end) := FeedParts(Rulebook(l, alphabet), Progress("", 0), parts);
            |end.buffer| <= l.hardMax && end.emitted == |fed|
  {
    PartsAreSpeakable(Rulebook(l, alphabet), Progress("", 0), parts);
  }

  // ---- In place ----

  class SpeechTextSegmenter {
    const limits: Settings
    const alphabet: Alphabet
    var buffer: string
    var segmentsEmitted: nat

    function View(): Progress
      reads this
    {
      Progress(buffer, segmentsEmitted)
    }

    function Cutting(): Cutter {
      Rulebook(limits, alphabet)
    }

    constructor (limits: Settings, alphabet: Alphabet)
      ensures View() == Progress("", 0) && this.limits == limits && this.alphabet == alphabet
    {
      this.limits := limits;
      this.alphabet := alphabet;
      buffer, segmentsEmitted := "", 0;
    }

    /** Walks the closing runs in order, as a regular expression search does. */
    method SentenceBoundary() returns (end: Option<nat>)
      ensures end == FirstEnd(raw => Abbreviated(alphabet, raw), buffer, 0)
    {
      ghost var script: Script := raw => Abbreviated(alphabet, raw);
      var p := 0;
      while p < |buffer|
        invariant p <= |buffer|
        invariant FirstEnd(script, buffer, p) == FirstEnd(script, buffer, 0)
      {
        var found := MatchAt(buffer, p);
        var next := if found.Some? then found.value else p + 1;
        if found.Some? && (buffer[p] != '.' || !Abbreviated(alphabet, buffer[..next])) {
          return found;
        }
        StepOver(script, buffer, p);
        p := next;
      }
      end := None;
    }

    method FindBoundary() returns (k: Option<nat>)
      ensures k == Cutting().cut(buffer, segmentsEmitted)
    {
      k := SentenceBoundary();
      if k.None? || k.value > limits.hardMax {
        k := LengthBoundary(limits, buffer, segmentsEmitted);
      }
    }

    method Take(k: nat) returns (segment: string)
      requires k <= |buffer|
      modifies this`buffer
      ensures segment == Cutting().normalize(old(buffer)[..k]) && buffer == old(buffer)[k..]
    {
      var raw := buffer[..k];
      buffer := buffer[k..];
      segment := Normalize(raw);
    }

    method CutOne(k: nat, before: seq<string>) returns (segments: seq<string>)
      requires k <= |buffer|
      modifies this
      ensures segments == Extend(before, Cutting().normalize(old(buffer)[..k]))
      ensures View() == Taken(Cutting(), old(View()), k)
    {
      segments := before;
      var segment := Take(k);
      if segment != "" {
        segments := segments + [segment];
        segmentsEmitted := segmentsEmitted + 1;
      }
    }

    method Feed(delta: string) returns (segments: seq<string>)
      modifies this
      ensures (segments, View()) == FeedFrom(Cutting(), Progress(old(buffer) + delta, old(segmentsEmitted)))
    {
      buffer := buffer + delta;
      segments := [];
      ghost var c := Cutting();
      ghost var whole := FeedFrom(c, View());
      assert [] + whole.0 == whole.0;
      while true
        invariant whole.0 == segments + FeedFrom(c, View()).0
        invariant whole.1 == FeedFrom(c, View()).1
        decreases |buffer|
      {
        var k := FindBoundary();
        if k.None? {
          break;
        }
        FeedMore(c, View(), k.value, segments);
        segments := CutOne(k.value, segments);
      }
      assert segments + [] == segments;
    }

    /** What flushing needs from the rules, found only where the concrete side is in play. */
    ghost predicate Follows(c: Cutter) {
      && c.limit == limits.hardMax
      && (forall b {:trigger Normalize(b)} :: c.normalize(b) == Normalize(b))
      && (forall b {:trigger FlushCut(limits, b)} :: limits.hardMax < |b| ==> c.flushCut(b) == FlushCut(limits, b))
    }

    /** Cuts one segment off an overlong remainder. */
    method FlushOne(ghost c: Cutter, before: seq<string>) returns (segments: seq<string>)
      requires Follows(c) && |c.normalize(buffer)| > limits.hardMax
      modifies this
      ensures segments + FlushFrom(c, View()).0 == before + FlushFrom(c, old(View())).0
      ensures FlushFrom(c, View()).1 == FlushFrom(c, old(View())).1
      ensures |buffer| < old(|buffer|)
    {
      NormalizeShortens(buffer);
      FlushMore(c, View(), before);
      segments := CutOne(FlushCut(limits, buffer), before);
    }

    method Normalized(ghost c: Cutter) returns (text: string)
      requires Follows(c)
      ensures text == c.normalize(buffer)
    {
      text := Normalize(buffer);
    }

    method FlushAll(ghost c: Cutter) returns (segments: seq<string>)
      requires Follows(c)
      modifies this
      ensures (segments, View()) == FlushFrom(c, old(View()))
    {
      segments := [];
      ghost var whole := FlushFrom(c, View());
      assert [] + whole.0 == whole.0;
      var text := Normalized(c);
      while |text| > limits.hardMax
        invariant whole.0 == segments + FlushFrom(c, View()).0
        invariant whole.1 == FlushFrom(c, View()).1
        invariant text == c.normalize(buffer)
        decreases |buffer|
      {
        segments := FlushOne(c, segments);
        text := Normalized(c);
      }
      segments := TakeRest(text, segments);
    }

    method Flush() returns (segments: seq<string>)
      modifies this
      ensures (segments, View()) == FlushFrom(Cutting(), old(View()))
    {
      segments := FlushAll(Cutting());
    }

    method TakeRest(text: string, before: seq<string>) returns (segments: seq<string>)
      modifies this
      ensures segments == before + Prepend(text, [])
      ensures View() == Progress("", if text != "" then old(segmentsEmitted) + 1 else old(segmentsEmitted))
    {
      segments := before;
      buffer := "";
      if text != "" {
        segments := segments + [text];
        segmentsEmitted := segmentsEmitted + 1;
      }
    }
  }
}
