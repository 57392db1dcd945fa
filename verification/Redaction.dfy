/**
 `redact_sensitive_text` and `_extract_labeled_values` over the labels a scanner found: which spans are
 replaced, and that replacing them from right to left in place is replacing them all at once.
 */
module Redaction {
  import opened Prelude

  datatype Kind = Username | Password

  /** A label in the text: text[start..end] is the label itself. */
  datatype Label = Label(kind: Kind, start: nat, end: nat)

  /** Matches of one regular-expression scan: in order, not empty, not overlapping, inside the text. */
  ghost predicate Scanned(labels: seq<Label>, length: nat) {
    && (forall i :: 0 <= i < |labels| ==> labels[i].start < labels[i].end <= length)
    && (forall i, j :: 0 <= i < j < |labels| ==> labels[i].end <= labels[j].start)
  }

  /** Where the segment after a label ends: at the next label, or at the end of the text. */
  function SegmentEnd(labels: seq<Label>, i: nat, length: nat): nat
    requires i < |labels|
  {
    if i + 1 < |labels| then labels[i + 1].start else length
  }

  // ---------- _extract_labeled_values ----------

  /** The values of all segments of one kind, in order; `values` is what the token scanner makes of a segment. */
  function ValuesOf(text: string, labels: seq<Label>, kind: Kind, values: string -> seq<string>, n: nat): seq<string>
    requires Scanned(labels, |text|) && n <= |labels|
  {
    if n == 0 then []
    else
      ValuesOf(text, labels, kind, values, n - 1)
      + if labels[n - 1].kind == kind then values(text[labels[n - 1].end..SegmentEnd(labels, n - 1, |text|)]) else []
  }

  function Saw(labels: seq<Label>, kind: Kind, n: nat): bool
    requires n <= |labels|
  {
    n > 0 && (labels[n - 1].kind == kind || Saw(labels, kind, n - 1))
  }

  /** A value comes only from after a label of its kind. */
  lemma {:induction false} ValuesOnlyAfterLabels(text: string, labels: seq<Label>, kind: Kind,
                                                 values: string -> seq<string>, n: nat)
    requires Scanned(labels, |text|) && n <= |labels|
    ensures ValuesOf(text, labels, kind, values, n) != [] ==> Saw(labels, kind, n)
  {
    if n > 0 { ValuesOnlyAfterLabels(text, labels, kind, values, n - 1); }
  }

  /** The part of the text after the i-th label. */
  function Segment(text: string, labels: seq<Label>, i: nat): string
    requires Scanned(labels, |text|) && i < |labels|
  {
    text[labels[i].end..SegmentEnd(labels, i, |text|)]
  }

  /** Each label of the kind contributes all values of its segment, in its place, and no other label does. */
  lemma {:induction false} ValuesInPlace(text: string, labels: seq<Label>, kind: Kind,
                                         values: string -> seq<string>, n: nat, i: nat)
    requires Scanned(labels, |text|) && i < n <= |labels|
    ensures var before, all := ValuesOf(text, labels, kind, values, i), ValuesOf(text, labels, kind, values, n);
            var mine := if labels[i].kind == kind then values(Segment(text, labels, i)) else [];
            before + mine <= all
    ensures ValuesOf(text, labels, kind, values, 0) == []
    ensures n == i + 1 ==>
              |ValuesOf(text, labels, kind, values, n)|
              == |ValuesOf(text, labels, kind, values, i)|
                 + if labels[i].kind == kind then |values(Segment(text, labels, i))| else 0
  {
    if n > i + 1 { ValuesInPlace(text, labels, kind, values, n - 1, i); }
  }

  /** A label of the kind was seen exactly when there is one. */
  lemma {:induction false} SawExactly(labels: seq<Label>, kind: Kind, n: nat)
    requires n <= |labels|
    ensures Saw(labels, kind, n) <==> exists i :: 0 <= i < n && labels[i].kind == kind
  {
    if n > 0 { SawExactly(labels, kind, n - 1); }
  }

  method ExtractLabeledValues(text: string, labels: seq<Label>, values: string -> seq<string>)
      returns (usernames: seq<string>, passwords: seq<string>, sawUsername: bool, sawPassword: bool)
    requires Scanned(labels, |text|)
    ensures usernames == ValuesOf(text, labels, Username, values, |labels|)
    ensures passwords == ValuesOf(text, labels, Password, values, |labels|)
    ensures sawUsername == Saw(labels, Username, |labels|) && sawPassword == Saw(labels, Password, |labels|)
    ensures (usernames != [] ==> sawUsername) && (passwords != [] ==> sawPassword)
  {
    ValuesOnlyAfterLabels(text, labels, Username, values, |labels|);
    ValuesOnlyAfterLabels(text, labels, Password, values, |labels|);
    usernames, passwords, sawUsername, sawPassword := [], [], false, false;
    for i := 0 to |labels|
      invariant usernames == ValuesOf(text, labels, Username, values, i)
      invariant passwords == ValuesOf(text, labels, Password, values, i)
      invariant sawUsername == Saw(labels, Username, i) && sawPassword == Saw(labels, Password, i)
    {
      var segment := text[labels[i].end..SegmentEnd(labels, i, |text|)];
      if labels[i].kind == Username {
        sawUsername := true;
        usernames := usernames + values(segment);
      } else {
        sawPassword := true;
        passwords := passwords + values(segment);
      }
    }
  }

  // ---------- The spans ----------

  datatype Span = Span(start: nat, end: nat, replacement: string)

  predicate Skips(c: char) {
    c == ' ' || c == '\t' || c == ':' || c == '='
  }

  predicate Delimits(c: char) {
    c == ',' || c == ';' || c == '\U{60C}' || c == '\n' || c == '\r'
  }

  /** len(s) - len(s.lstrip(" \t:=")) */
  function LeadingLength(s: string): (n: nat)
    ensures n <= |s|
  {
    if s != [] && Skips(s[0]) then 1 + LeadingLength(s[1..]) else 0
  }

  /** The first delimiter, or the end. */
  function DelimiterAt(s: string): (n: nat)
    ensures n <= |s|
  {
    if s == [] || Delimits(s[0]) then 0 else 1 + DelimiterAt(s[1..])
  }

  /** The span of one password segment at `offset`, unless it holds no value; `prompt` recognises plain prose. */
  function SpanOf(segment: string, offset: nat, prompt: string -> bool): Option<Span> {
    var stripped := segment[LeadingLength(segment)..];
    if stripped == [] || prompt(stripped) then None else SecretSpan(segment[..DelimiterAt(segment)], offset)
  }

  /** What is left of the segment up to its first delimiter, without the separators. */
  function SecretSpan(secret: string, offset: nat): Option<Span> {
    var start, end := offset + LeadingLength(secret), offset + |secret|;
    if end <= start then None
    else Some(Span(start, end, if IsSpace(secret[|secret| - 1]) then "******** " else "********"))
  }

  lemma SpanInside(segment: string, offset: nat, prompt: string -> bool)
    requires SpanOf(segment, offset, prompt).Some?
    ensures var s := SpanOf(segment, offset, prompt).value;
            offset <= s.start < s.end <= offset + |segment|
  {}

  lemma {:induction false} LeadingIsSeparators(s: string)
    ensures forall q :: 0 <= q < LeadingLength(s) ==> Skips(s[q])
    ensures LeadingLength(s) < |s| ==> !Skips(s[LeadingLength(s)])
  {
    if s != [] && Skips(s[0]) {
      LeadingIsSeparators(s[1..]);
      assert forall q :: 1 <= q < |s| ==> s[q] == s[1..][q - 1];
    }
  }

  lemma {:induction false} DelimiterIsFirst(s: string)
    ensures forall q :: 0 <= q < DelimiterAt(s) ==> !Delimits(s[q])
    ensures DelimiterAt(s) < |s| ==> Delimits(s[DelimiterAt(s)])
  {
    if s != [] && !Delimits(s[0]) {
      DelimiterIsFirst(s[1..]);
      assert forall q :: 1 <= q < |s| ==> s[q] == s[1..][q - 1];
    }
  }

  /**
   A span takes the whole value: only separators lie between the label and it, it reaches to the first
   delimiter or the end of the segment, and its replacement is the mask, with a space kept at its end.
   */
  lemma SpanIsWholeValue(segment: string, prompt: string -> bool)
    requires SpanOf(segment, 0, prompt).Some?
    ensures var s := SpanOf(segment, 0, prompt).value;
            && s.start < s.end <= |segment|
            && (forall q :: 0 <= q < s.start ==> Skips(segment[q])) && !Skips(segment[s.start])
            && (forall q :: 0 <= q < s.end ==> !Delimits(segment[q]))
            && (s.end < |segment| ==> Delimits(segment[s.end]))
            && s.replacement == "********" + if IsSpace(segment[s.end - 1]) then " " else ""
  {
    var n := DelimiterAt(segment);
    DelimiterIsFirst(segment);
    LeadingIsSeparators(segment[..n]);
  }

  predicate Separates(c: char) {
    c == ' ' || c == '\t' || c == ':' || c == '='
  }

  /**
   s[p..e] is the value that a segment after a password label holds: only separators come before it, it
   ends before the first delimiter or with the segment, and what follows is no plain prose.
   */
  ghost predicate IsValue(s: string, prompt: string -> bool, p: nat, e: nat) {
    && p < e <= |s|
    && (forall q :: 0 <= q < p ==> Separates(s[q])) && !Separates(s[p])
    && (forall q :: p <= q < e ==> !Delimits(s[q])) && (e < |s| ==> Delimits(s[e]))
    && !prompt(s[p..])
  }

  /** The mask of such a value in a segment that begins at `offset`. */
  function MaskOf(s: string, offset: nat, p: nat, e: nat): Span
    requires p < e <= |s|
  {
    Span(offset + p, offset + e, "********" + if IsSpace(s[e - 1]) then " " else "")
  }

  lemma LeadingLengthIs(s: string, n: nat)
    requires n <= |s| && (forall q :: 0 <= q < n ==> Separates(s[q])) && (n < |s| ==> !Separates(s[n]))
    ensures LeadingLength(s) == n
  {
    LeadingIsSeparators(s);
  }

  lemma DelimiterAtIs(s: string, n: nat)
    requires n <= |s| && (forall q :: 0 <= q < n ==> !Delimits(s[q])) && (n < |s| ==> Delimits(s[n]))
    ensures DelimiterAt(s) == n
  {
    DelimiterIsFirst(s);
  }

  /** A value is found and masked. */
  lemma ValueIsMasked(s: string, offset: nat, prompt: string -> bool, p: nat, e: nat)
    requires IsValue(s, prompt, p, e)
    ensures SpanOf(s, offset, prompt) == Some(MaskOf(s, offset, p, e))
  {
    LeadingLengthIs(s, p);
    assert forall q :: 0 <= q < e ==> !Delimits(s[q]) by {
      assert forall q :: 0 <= q < p ==> Separates(s[q]);
    }
    DelimiterAtIs(s, e);
    LeadingLengthIs(s[..e], p);
    SecretIsMasked(s, s[..e], offset, p, e);
  }

  lemma SecretIsMasked(s: string, secret: string, offset: nat, p: nat, e: nat)
    requires p < e <= |s| && secret == s[..e] && LeadingLength(secret) == p
    ensures SecretSpan(secret, offset) == Some(MaskOf(s, offset, p, e))
  {
    assert secret[e - 1] == s[e - 1];
    assert "********" + " " == "******** " && "********" + "" == "********";
  }

  /** And what is masked is the value. */
  lemma MaskedIsValue(s: string, offset: nat, prompt: string -> bool) returns (p: nat, e: nat)
    requires SpanOf(s, offset, prompt).Some?
    ensures IsValue(s, prompt, p, e) && SpanOf(s, offset, prompt).value == MaskOf(s, offset, p, e)
  {
    e := DelimiterAt(s);
    var secret := s[..e];
    p := LeadingLength(secret);
    DelimiterIsFirst(s);
    LeadingIsSeparators(secret);
    assert p < e && secret[p] == s[p];
    assert forall q :: 0 <= q < p ==> secret[q] == s[q];
    LeadingLengthIs(s, p);
    SecretIsMasked(s, secret, offset, p, e);
  }

  /** The span of the i-th label, if it is a password label with a value. */
  function FoundAt(text: string, labels: seq<Label>, prompt: string -> bool, i: nat): Option<Span>
    requires Scanned(labels, |text|) && i < |labels|
  {
    if labels[i].kind == Username then None else SpanOf(Segment(text, labels, i), labels[i].end, prompt)
  }

  /** What is found after each of the first n labels. */
  function Found(text: string, labels: seq<Label>, prompt: string -> bool, n: nat): seq<Option<Span>>
    requires Scanned(labels, |text|) && n <= |labels|
  {
    if n == 0 then [] else Found(text, labels, prompt, n - 1) + [FoundAt(text, labels, prompt, n - 1)]
  }

  function Somes(options: seq<Option<Span>>): seq<Span> {
    if options == [] then []
    else
      var n := |options| - 1;
      Somes(options[..n]) + if options[n].Some? then [options[n].value] else []
  }

  function SpansOf(text: string, labels: seq<Label>, prompt: string -> bool, n: nat): seq<Span>
    requires Scanned(labels, |text|) && n <= |labels|
  {
    Somes(Found(text, labels, prompt, n))
  }

  lemma SpansNext(text: string, labels: seq<Label>, prompt: string -> bool, i: nat)
    requires Scanned(labels, |text|) && i < |labels|
    ensures var found := FoundAt(text, labels, prompt, i);
            SpansOf(text, labels, prompt, i + 1)
            == SpansOf(text, labels, prompt, i) + if found.Some? then [found.value] else []
  {
    assert Found(text, labels, prompt, i + 1)[..|Found(text, labels, prompt, i)|] == Found(text, labels, prompt, i);
  }

  lemma {:induction false} FoundSize(text: string, labels: seq<Label>, prompt: string -> bool, n: nat)
    requires Scanned(labels, |text|) && n <= |labels|
    ensures |Found(text, labels, prompt, n)| == n
  {
    if n > 0 { FoundSize(text, labels, prompt, n - 1); }
  }

  lemma {:induction false} FoundIs(text: string, labels: seq<Label>, prompt: string -> bool, n: nat, i: nat)
    requires Scanned(labels, |text|) && i < n <= |labels|
    ensures |Found(text, labels, prompt, n)| == n
    ensures Found(text, labels, prompt, n)[i] == FoundAt(text, labels, prompt, i)
  {
    FoundSize(text, labels, prompt, n - 1);
    if i < n - 1 { FoundIs(text, labels, prompt, n - 1, i); }
  }

  /** Where each kept option comes from, and where each option goes. */
  lemma {:induction false} SomesFrom(options: seq<Option<Span>>, k: nat) returns (i: nat)
    requires k < |Somes(options)|
    ensures i < |options| && options[i] == Some(Somes(options)[k])
  {
    var n := |options| - 1;
    if k < |Somes(options[..n])| { i := SomesFrom(options[..n], k); } else { i := n; }
  }

  lemma {:induction false} SomesKeep(options: seq<Option<Span>>, i: nat) returns (k: nat)
    requires i < |options| && options[i].Some?
    ensures k < |Somes(options)| && Somes(options)[k] == options[i].value
  {
    var n := |options| - 1;
    if i < n { k := SomesKeep(options[..n], i); } else { k := |Somes(options[..n])|; }
  }

  /** Spans in order, not empty, not overlapping, starting no earlier than `from`. */
  predicate Disjoint(spans: seq<Span>, from: nat, length: nat) {
    if spans == [] then from <= length
    else from <= spans[0].start < spans[0].end && Disjoint(spans[1..], spans[0].end, length)
  }

  lemma {:induction false} DisjointAppend(spans: seq<Span>, from: nat, middle: nat, last: Span, length: nat)
    requires Disjoint(spans, from, middle) && middle <= last.start < last.end <= length
    ensures Disjoint(spans + [last], from, length)
  {
    if spans != [] {
      DisjointAppend(spans[1..], spans[0].end, middle, last, length);
      assert (spans + [last])[1..] == spans[1..] + [last];
    }
  }

  lemma {:induction false} DisjointLater(spans: seq<Span>, from: nat, middle: nat, length: nat)
    requires Disjoint(spans, from, middle) && middle <= length
    ensures Disjoint(spans, from, length)
  {
    if spans != [] { DisjointLater(spans[1..], spans[0].end, middle, length); }
  }

  /** The selected spans are increasing and disjoint, each inside its own label's segment. */
  lemma {:induction false} SelectedSpansDisjoint(text: string, labels: seq<Label>, prompt: string -> bool, n: nat)
    requires Scanned(labels, |text|) && n <= |labels|
    ensures Disjoint(SpansOf(text, labels, prompt, n), 0, if n == 0 then 0 else SegmentEnd(labels, n - 1, |text|))
  {
    if n > 0 {
      SelectedSpansDisjoint(text, labels, prompt, n - 1);
      var l, before := labels[n - 1], SpansOf(text, labels, prompt, n - 1);
      var limit := SegmentEnd(labels, n - 1, |text|);
      var middle := if n == 1 then 0 else SegmentEnd(labels, n - 2, |text|);
      var span := FoundAt(text, labels, prompt, n - 1);
      SpansNext(text, labels, prompt, n - 1);
      if span.Some? {
        SpanInside(text[l.end..limit], l.end, prompt);
        DisjointAppend(before, 0, middle, span.value, limit);
      } else {
        assert SpansOf(text, labels, prompt, n) == before + [] == before;
        DisjointLater(before, 0, middle, limit);
      }
    }
  }

  lemma SelectedInText(text: string, labels: seq<Label>, prompt: string -> bool)
    requires Scanned(labels, |text|)
    ensures Disjoint(SpansOf(text, labels, prompt, |labels|), 0, |text|)
  {
    SelectedSpansDisjoint(text, labels, prompt, |labels|);
    DisjointLater(SpansOf(text, labels, prompt, |labels|), 0,
                  if |labels| == 0 then 0 else SegmentEnd(labels, |labels| - 1, |text|), |text|);
  }

  /** The span masks the value s[p..e] of the segment s after the j-th label, a password label. */
  ghost predicate MasksLabel(text: string, labels: seq<Label>, prompt: string -> bool, span: Span,
                             j: nat, p: nat, e: nat)
    requires Scanned(labels, |text|)
  {
    && j < |labels| && labels[j].kind == Password
    && IsValue(Segment(text, labels, j), prompt, p, e)
    && span == MaskOf(Segment(text, labels, j), labels[j].end, p, e)
  }

  /** Every selected span masks the value after a password label. */
  lemma EachSpanMasks(text: string, labels: seq<Label>, prompt: string -> bool, k: nat)
      returns (j: nat, p: nat, e: nat)
    requires Scanned(labels, |text|) && k < |SpansOf(text, labels, prompt, |labels|)|
    ensures MasksLabel(text, labels, prompt, SpansOf(text, labels, prompt, |labels|)[k], j, p, e)
  {
    j := SomesFrom(Found(text, labels, prompt, |labels|), k);
    FoundSize(text, labels, prompt, |labels|);
    FoundIs(text, labels, prompt, |labels|, j);
    p, e := MaskedIsValue(Segment(text, labels, j), labels[j].end, prompt);
  }

  lemma MaskIsSelected(text: string, labels: seq<Label>, prompt: string -> bool, span: Span, j: nat, p: nat, e: nat)
    requires Scanned(labels, |text|) && MasksLabel(text, labels, prompt, span, j, p, e)
    ensures span in SpansOf(text, labels, prompt, |labels|)
  {
    ValueIsMasked(Segment(text, labels, j), labels[j].end, prompt, p, e);
    FoundIs(text, labels, prompt, |labels|, j);
    var k := SomesKeep(Found(text, labels, prompt, |labels|), j);
  }

  lemma SelectedIsMask(text: string, labels: seq<Label>, prompt: string -> bool, span: Span)
      returns (j: nat, p: nat, e: nat)
    requires Scanned(labels, |text|) && span in SpansOf(text, labels, prompt, |labels|)
    ensures MasksLabel(text, labels, prompt, span, j, p, e)
  {
    var k :| 0 <= k < |SpansOf(text, labels, prompt, |labels|)| && SpansOf(text, labels, prompt, |labels|)[k] == span;
    j, p, e := EachSpanMasks(text, labels, prompt, k);
  }

  /**
   The selected spans are exactly the masks of the values that password labels have: a span is selected if
   and only if it masks the value after one of them.
   */
  lemma SelectedExactly(text: string, labels: seq<Label>, prompt: string -> bool, span: Span)
    requires Scanned(labels, |text|)
    ensures span in SpansOf(text, labels, prompt, |labels|)
       <==> exists j, p, e :: MasksLabel(text, labels, prompt, span, j, p, e)
  {
    if span in SpansOf(text, labels, prompt, |labels|) {
      var j, p, e := SelectedIsMask(text, labels, prompt, span);
    }
    if j, p, e :| MasksLabel(text, labels, prompt, span, j, p, e) {
      MaskIsSelected(text, labels, prompt, span, j, p, e);
    }
  }

  /** A segment has at most one value, so a password label has at most one span. */
  lemma ValueIsUnique(s: string, prompt: string -> bool, p: nat, e: nat, p': nat, e': nat)
    requires IsValue(s, prompt, p, e) && IsValue(s, prompt, p', e')
    ensures p == p' && e == e'
  {}

  /** What follows a user-id label, and every label itself, is outside all selected spans. */
  lemma UsernamesAreOutside(text: string, labels: seq<Label>, prompt: string -> bool, i: nat, q: nat)
    requires Scanned(labels, |text|) && i < |labels|
    requires labels[i].start <= q < labels[i].end
             || (labels[i].kind == Username && labels[i].end <= q < SegmentEnd(labels, i, |text|))
    ensures Outside(SpansOf(text, labels, prompt, |labels|), q)
  {
    var spans := SpansOf(text, labels, prompt, |labels|);
    forall k | 0 <= k < |spans| ensures q < spans[k].start || spans[k].end <= q {
      var j, p, e := EachSpanMasks(text, labels, prompt, k);
      assert labels[j].end <= spans[k].start && spans[k].end <= SegmentEnd(labels, j, |text|);
      if j < i { assert SegmentEnd(labels, j, |text|) <= labels[i].start; }
      if i < j { assert SegmentEnd(labels, i, |text|) <= labels[j].start; }
    }
    OutsideAll(spans, q);
  }

  lemma {:induction false} OutsideAll(spans: seq<Span>, q: nat)
    ensures Outside(spans, q) <==> forall k :: 0 <= k < |spans| ==> q < spans[k].start || spans[k].end <= q
  {
    if spans != [] {
      OutsideAll(spans[1..], q);
      assert forall k :: 1 <= k < |spans| ==> spans[k] == spans[1..][k - 1];
      assert forall k :: 0 <= k < |spans| - 1 ==> spans[1..][k] == spans[k + 1];
    }
  }

  // ---------- Replacing ----------

  /** All spans replaced at once, in the text from `from` on. */
  function Replaced(text: string, spans: seq<Span>, from: nat): string
    requires Disjoint(spans, from, |text|)
  {
    if spans == [] then text[from..]
    else
      InText(spans, from, |text|);
      text[from..spans[0].start] + spans[0].replacement + Replaced(text, spans[1..], spans[0].end)
  }

  lemma {:induction false} InText(spans: seq<Span>, from: nat, length: nat)
    requires Disjoint(spans, from, length)
    ensures from <= length
    ensures spans != [] ==> spans[0].end <= length
  {
    if spans != [] { InText(spans[1..], spans[0].end, length); }
  }

  /** Where the text before the i-th span begins. */
  function Before(spans: seq<Span>, i: nat): nat
    requires i <= |spans|
  {
    if i == 0 then 0 else spans[i - 1].end
  }

  lemma {:induction false} DisjointFrom(spans: seq<Span>, from: nat, length: nat, i: nat)
    requires Disjoint(spans, from, length) && i <= |spans|
    ensures Disjoint(spans[i..], if i == 0 then from else spans[i - 1].end, length)
  {
    if i == 0 {
      assert spans[0..] == spans;
    } else {
      DisjointFrom(spans[1..], spans[0].end, length, i - 1);
      assert spans[1..][i - 1..] == spans[i..];
    }
  }

  /** The loop of `redact_sensitive_text`: the spans in reverse, each spliced into the text so far. */
  method ReplaceReversed(text: string, spans: seq<Span>) returns (redacted: string)
    requires Disjoint(spans, 0, |text|)
    ensures redacted == Replaced(text, spans, 0)
  {
    redacted := text;
    DisjointFrom(spans, 0, |text|, |spans|);
    InText(spans[|spans|..], Before(spans, |spans|), |text|);
    assert spans[|spans|..] == [];
    var i := |spans|;
    while i > 0
      invariant 0 <= i <= |spans|
      invariant Disjoint(spans[i..], Before(spans, i), |text|) && Before(spans, i) <= |text|
      invariant redacted == text[..Before(spans, i)] + Replaced(text, spans[i..], Before(spans, i))
    {
      i := i - 1;
      SpliceStep(text, spans, i);
      redacted := redacted[..spans[i].start] + spans[i].replacement + redacted[spans[i].end..];
    }
    assert spans[0..] == spans;
  }

  /** Splicing one more span into the text with the later ones already replaced. */
  lemma SpliceStep(text: string, spans: seq<Span>, i: nat)
    requires Disjoint(spans, 0, |text|) && i < |spans|
    requires Disjoint(spans[i + 1..], Before(spans, i + 1), |text|) && Before(spans, i + 1) <= |text|
    ensures Disjoint(spans[i..], Before(spans, i), |text|) && Before(spans, i) <= |text|
    ensures var s := spans[i];
            var redacted := text[..Before(spans, i + 1)] + Replaced(text, spans[i + 1..], Before(spans, i + 1));
            && s.start <= s.end <= |redacted|
            && redacted[..s.start] + s.replacement + redacted[s.end..]
            == text[..Before(spans, i)] + Replaced(text, spans[i..], Before(spans, i))
  {
    var s := spans[i];
    var redacted := text[..s.end] + Replaced(text, spans[i + 1..], s.end);
    DisjointFrom(spans, 0, |text|, i);
    InText(spans[i..], Before(spans, i), |text|);
    assert spans[i..][0] == s && spans[i..][1..] == spans[i + 1..];
    assert redacted[s.end..] == Replaced(text, spans[i + 1..], s.end);
    assert redacted[..s.start] == text[..Before(spans, i)] + text[Before(spans, i)..s.start];
  }

  /** The first loop of `redact_sensitive_text`. */
  method SelectSpans(text: string, labels: seq<Label>, prompt: string -> bool) returns (replacements: seq<Span>)
    requires Scanned(labels, |text|)
    ensures replacements == SpansOf(text, labels, prompt, |labels|)
  {
    replacements := [];
    for i := 0 to |labels|
      invariant replacements == SpansOf(text, labels, prompt, i)
    {
      SpansNext(text, labels, prompt, i);
      if labels[i].kind == Password {
        var span := SpanOf(text[labels[i].end..SegmentEnd(labels, i, |text|)], labels[i].end, prompt);
        if span.Some? { replacements := replacements + [span.value]; }
      }
    }
  }

  /** `redact_sensitive_text`: the text with every selected span replaced, and nothing else changed. */
  method RedactSensitiveText(text: string, labels: seq<Label>, prompt: string -> bool) returns (redacted: string)
    requires Scanned(labels, |text|)
    ensures Disjoint(SpansOf(text, labels, prompt, |labels|), 0, |text|)
    ensures redacted == Replaced(text, SpansOf(text, labels, prompt, |labels|), 0)
  {
    SelectedInText(text, labels, prompt);
    var replacements := SelectSpans(text, labels, prompt);
    redacted := ReplaceReversed(text, replacements);
  }

  // ---------- What survives ----------

  predicate Outside(spans: seq<Span>, p: nat) {
    spans == [] || ((p < spans[0].start || spans[0].end <= p) && Outside(spans[1..], p))
  }

  /** How far the text at p moves: each span before it changes the length. */
  function Shift(spans: seq<Span>, p: nat): int {
    if spans == [] || p < spans[0].end then 0
    else |spans[0].replacement| - (spans[0].end - spans[0].start) + Shift(spans[1..], p)
  }

  /** Every character outside the spans is kept, at a place that only the spans before it decide. */
  lemma {:induction false} OutsideKept(text: string, spans: seq<Span>, from: nat, p: nat)
    requires Disjoint(spans, from, |text|) && from <= p < |text| && Outside(spans, p)
    ensures 0 <= p - from + Shift(spans, p) < |Replaced(text, spans, from)|
    ensures Replaced(text, spans, from)[p - from + Shift(spans, p)] == text[p]
  {
    if spans != [] {
      InText(spans, from, |text|);
      if spans[0].end <= p {
        OutsideKept(text, spans[1..], spans[0].end, p);
      }
    }
  }

  lemma {:induction false} ShiftKeepsRoom(spans: seq<Span>, from: nat, length: nat, p: nat)
    requires Disjoint(spans, from, length) && from <= p
    ensures Outside(spans, p) ==> p + Shift(spans, p) >= from
  {
    if spans != [] && p >= spans[0].end { ShiftKeepsRoom(spans[1..], spans[0].end, length, p); }
  }

  /** Kept characters stay in order. */
  lemma {:induction false} OutsideInOrder(spans: seq<Span>, from: nat, length: nat, p: nat, q: nat)
    requires Disjoint(spans, from, length) && from <= p < q && Outside(spans, p) && Outside(spans, q)
    ensures p + Shift(spans, p) < q + Shift(spans, q)
  {
    if spans != [] {
      if spans[0].end <= p {
        OutsideInOrder(spans[1..], spans[0].end, length, p, q);
      } else if spans[0].end <= q {
        ShiftKeepsRoom(spans[1..], spans[0].end, length, q);
      }
    }
  }

  /** text[lo..hi] stands in the result at `at`. */
  ghost predicate StandsAt(text: string, lo: nat, hi: nat, result: string, at: int) {
    lo <= hi <= |text| && 0 <= at && at + (hi - lo) <= |result| && result[at..at + (hi - lo)] == text[lo..hi]
  }

  lemma PlaceInStretch(text: string, spans: seq<Span>, from: nat, lo: nat, q: nat)
    requires Disjoint(spans, from, |text|) && from <= lo <= q < |text|
    requires forall k :: lo <= k <= q ==> Outside(spans, k)
    ensures 0 <= q - from + Shift(spans, lo) < |Replaced(text, spans, from)|
    ensures Replaced(text, spans, from)[q - from + Shift(spans, lo)] == text[q]
  {
    assert Outside(spans, q);
    OutsideKept(text, spans, from, q);
    SameShift(spans, from, |text|, lo, q);
  }

  /** A stretch of text without a span is kept as it is, all moved by the same distance. */
  lemma StretchKept(text: string, spans: seq<Span>, from: nat, lo: nat, hi: nat)
    requires Disjoint(spans, from, |text|) && from <= lo < hi <= |text|
    requires forall q :: lo <= q < hi ==> Outside(spans, q)
    ensures StandsAt(text, lo, hi, Replaced(text, spans, from), lo - from + Shift(spans, lo))
  {
    var r, at := Replaced(text, spans, from), lo - from + Shift(spans, lo);
    PlaceInStretch(text, spans, from, lo, lo);
    PlaceInStretch(text, spans, from, lo, hi - 1);
    forall k | 0 <= k < hi - lo ensures r[at..at + (hi - lo)][k] == text[lo..hi][k] {
      PlaceInStretch(text, spans, from, lo, lo + k);
    }
  }

  lemma {:induction false} SameShift(spans: seq<Span>, from: nat, length: nat, lo: nat, q: nat)
    requires Disjoint(spans, from, length) && lo <= q && forall k :: lo <= k <= q ==> Outside(spans, k)
    ensures Shift(spans, q) == Shift(spans, lo)
  {
    assert Outside(spans, lo);
    assert spans != [] && lo <= spans[0].start <= q ==> Outside(spans, spans[0].start);
    if spans != [] {
      if spans[0].end <= lo {
        forall k | lo <= k <= q ensures Outside(spans[1..], k) { assert Outside(spans, k); }
        SameShift(spans[1..], spans[0].end, length, lo, q);
      }
    }
  }

  /** Where a span was, its mask stands, and nothing else of the text. */
  lemma {:induction false} MaskStands(text: string, spans: seq<Span>, from: nat, k: nat) returns (at: nat)
    requires Disjoint(spans, from, |text|) && k < |spans|
    ensures at + |spans[k].replacement| <= |Replaced(text, spans, from)|
    ensures Replaced(text, spans, from)[at..at + |spans[k].replacement|] == spans[k].replacement
    ensures k == 0 ==> at == spans[0].start - from
  {
    InText(spans, from, |text|);
    var head := spans[0].start - from + |spans[0].replacement|;
    var r := Replaced(text, spans, from);
    assert r == text[from..spans[0].start] + spans[0].replacement + Replaced(text, spans[1..], spans[0].end);
    if k == 0 {
      at := spans[0].start - from;
    } else {
      var rest := MaskStands(text, spans[1..], spans[0].end, k - 1);
      at := head + rest;
      assert r[at..at + |spans[k].replacement|]
          == Replaced(text, spans[1..], spans[0].end)[rest..rest + |spans[k].replacement|];
    }
  }

  /** Every character of the result is one kept from outside the spans, or one of a mask. */
  ghost predicate Explained(text: string, spans: seq<Span>, from: nat, r: int, c: char)
    requires Disjoint(spans, from, |text|)
  {
    (exists p :: from <= p < |text| && Outside(spans, p) && r == p - from + Shift(spans, p) && c == text[p])
    || exists k :: 0 <= k < |spans| && c in spans[k].replacement
  }

  lemma {:induction false} EveryCharacter(text: string, spans: seq<Span>, from: nat, r: nat)
    requires Disjoint(spans, from, |text|) && r < |Replaced(text, spans, from)|
    ensures Explained(text, spans, from, r, Replaced(text, spans, from)[r])
  {
    InText(spans, from, |text|);
    if spans == [] {
      assert Outside(spans, from + r) && Shift(spans, from + r) == 0;
    } else {
      var s := spans[0];
      var head := s.start - from + |s.replacement|;
      var rest := Replaced(text, spans[1..], s.end);
      if r < s.start - from {
        OutsideEarlier(spans, from, |text|, from + r);
      } else if r < head {
        assert Replaced(text, spans, from)[r] == s.replacement[r - (s.start - from)];
      } else {
        EveryCharacter(text, spans[1..], s.end, r - head);
        assert Replaced(text, spans, from)[r] == rest[r - head];
        if p :| s.end <= p < |text| && Outside(spans[1..], p) && r - head == p - s.end + Shift(spans[1..], p)
                && rest[r - head] == text[p] {
          assert Outside(spans, p) && r == p - from + Shift(spans, p);
        }
        if k :| 0 <= k < |spans[1..]| && rest[r - head] in spans[1..][k].replacement {
          assert rest[r - head] in spans[k + 1].replacement;
        }
      }
    }
  }

  /** Two texts that differ only inside the spans are redacted to the same text: no secret character matters. */
  lemma {:induction false} SecretsDoNotSurvive(a: string, b: string, spans: seq<Span>, from: nat)
    requires |a| == |b| && Disjoint(spans, from, |a|)
    requires forall p :: from <= p < |a| && Outside(spans, p) ==> a[p] == b[p]
    ensures Replaced(a, spans, from) == Replaced(b, spans, from)
  {
    InText(spans, from, |a|);
    if spans == [] {
      assert a[from..] == b[from..];
    } else {
      var s := spans[0];
      forall p | from <= p < s.start ensures a[p] == b[p] { OutsideEarlier(spans, from, |a|, p); }
      assert a[from..s.start] == b[from..s.start];
      SecretsDoNotSurvive(a, b, spans[1..], s.end);
    }
  }

  /** A place before the first span is outside all of them. */
  lemma {:induction false} OutsideEarlier(spans: seq<Span>, from: nat, length: nat, p: nat)
    requires Disjoint(spans, from, length) && (spans != [] ==> p < spans[0].start)
    ensures Outside(spans, p)
  {
    if spans != [] { OutsideEarlier(spans[1..], spans[0].end, length, p); }
  }

  // ---------- End to end ----------

  /** A user-id label with all that follows it up to the next label is kept, character by character. */
  lemma UsernameSegmentKept(text: string, labels: seq<Label>, prompt: string -> bool, i: nat)
    requires Scanned(labels, |text|) && i < |labels| && labels[i].kind == Username
    ensures var spans := SpansOf(text, labels, prompt, |labels|);
            var lo, hi := labels[i].start, SegmentEnd(labels, i, |text|);
            Disjoint(spans, 0, |text|) && StandsAt(text, lo, hi, Replaced(text, spans, 0), lo + Shift(spans, lo))
  {
    var spans := SpansOf(text, labels, prompt, |labels|);
    var lo, hi := labels[i].start, SegmentEnd(labels, i, |text|);
    SelectedInText(text, labels, prompt);
    UsernameIsOutside(text, labels, prompt, i);
    StretchKept(text, spans, 0, lo, hi);
  }

  lemma UsernameIsOutside(text: string, labels: seq<Label>, prompt: string -> bool, i: nat)
    requires Scanned(labels, |text|) && i < |labels| && labels[i].kind == Username
    ensures forall q :: labels[i].start <= q < SegmentEnd(labels, i, |text|) ==>
              Outside(SpansOf(text, labels, prompt, |labels|), q)
  {
    forall q | labels[i].start <= q < SegmentEnd(labels, i, |text|)
      ensures Outside(SpansOf(text, labels, prompt, |labels|), q)
    {
      UsernamesAreOutside(text, labels, prompt, i, q);
    }
  }

  /** The value after a password label stands in the result as its mask, at one place. */
  lemma PasswordValueMasked(text: string, labels: seq<Label>, prompt: string -> bool, j: nat, p: nat, e: nat)
      returns (k: nat, at: nat)
    requires Scanned(labels, |text|) && j < |labels| && labels[j].kind == Password
    requires IsValue(Segment(text, labels, j), prompt, p, e)
    ensures var spans := SpansOf(text, labels, prompt, |labels|);
            && Disjoint(spans, 0, |text|) && k < |spans|
            && spans[k].start == labels[j].end + p && spans[k].end == labels[j].end + e
            && at + 8 <= |Replaced(text, spans, 0)| && Replaced(text, spans, 0)[at..at + 8] == "********"
            && (forall q :: spans[k].start <= q < spans[k].end ==> !Outside(spans, q))
  {
    var spans := SpansOf(text, labels, prompt, |labels|);
    var span := MaskOf(Segment(text, labels, j), labels[j].end, p, e);
    SelectedInText(text, labels, prompt);
    MaskIsSelected(text, labels, prompt, span, j, p, e);
    k :| 0 <= k < |spans| && spans[k] == span;
    at := MaskStands(text, spans, 0, k);
    assert Replaced(text, spans, 0)[at..at + |span.replacement|][..8] == Replaced(text, spans, 0)[at..at + 8];
    assert span.replacement[..8] == "********";
    forall q | spans[k].start <= q < spans[k].end ensures !Outside(spans, q) { OutsideAll(spans, q); }
  }
}
