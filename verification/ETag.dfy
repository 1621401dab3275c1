/** Validators of cached answers: the ETag header and the If-None-Match list. */
module ETag {
  import opened Domain

  const QUOTE := "\""

  /** A validator as a header value; an empty one stays empty, a quoted one as it is. */
  function Quote(etag: string): string {
    if etag == "" || StartsWith(etag, QUOTE) then etag else QUOTE + etag + QUOTE
  }

  predicate IsSpace(c: char) {
    '\t' <= c <= '\r' || c == ' ' || c == '\U{0085}' || c == '\U{00A0}' || c == '\U{1680}'
      || '\U{2000}' <= c <= '\U{200A}'
    || c == '\U{2028}' || c == '\U{2029}' || c == '\U{202F}' || c == '\U{205F}' || c == '\U{3000}'
  }

  function TrimLeft(s: string): string { if s != "" && IsSpace(s[0]) then TrimLeft(s[1..]) else s }

  function TrimRight(s: string): string { if s != "" && IsSpace(s[|s| - 1]) then TrimRight(s[..|s| - 1]) else s }

  function TrimSpace(s: string): string { TrimRight(TrimLeft(s)) }

  function TrimPrefix(s: string, prefix: string): string { if StartsWith(s, prefix) then s[|prefix|..] else s }

  function CommaAt(s: string): (n: nat)
    ensures n <= |s|
    ensures n < |s| ==> s[n] == ','
    ensures ',' !in s[..n]
  {
    if s == "" || s[0] == ',' then 0
    else
      assert s[..1 + CommaAt(s[1..])] == [s[0]] + s[1..][..CommaAt(s[1..])];
      1 + CommaAt(s[1..])
  }

  function Split(s: string): (parts: seq<string>)
    ensures forall p :: p in parts ==> ',' !in p
    decreases |s|
  {
    var n := CommaAt(s);
    if n == |s| then
      assert s[..n] == s;
      [s]
    else [s[..n]] + Split(s[n + 1..])
  }

  predicate Accepts(candidate: string, etag: string) {
    var c := TrimSpace(candidate);
    c == "*" || TrimPrefix(c, "W/") == etag
  }

  predicate AnyAccepted(candidates: seq<string>, etag: string) {
    exists i :: 0 <= i < |candidates| && Accepts(candidates[i], etag)
  }

  predicate Matched(ifNoneMatch: string, etag: string) {
    ifNoneMatch != "" && etag != "" && AnyAccepted(Split(ifNoneMatch), etag)
  }

  /** Compares the list of the request with the validator of the answer, weakly. */
  method MatchETag(ifNoneMatch: string, etag: string) returns (matched: bool)
    ensures matched == Matched(ifNoneMatch, etag)
  {
    if ifNoneMatch == "" || etag == "" {
      return false;
    }
    var candidates := Split(ifNoneMatch);
    for i := 0 to |candidates|
      invariant forall j :: 0 <= j < i ==> !Accepts(candidates[j], etag)
    {
      var candidate := TrimSpace(candidates[i]);
      assert Accepts(candidates[i], etag) <==> candidate == "*" || TrimPrefix(candidate, "W/") == etag;
      if candidate == "*" {
        return true;
      }
      if TrimPrefix(candidate, "W/") == etag {
        return true;
      }
    }
    return false;
  }

  // Printed lists, sections 8.8.3 and 13.1.2 of RFC 9110

  datatype Item = Any | Entity(weak: bool, text: string)

  function Body(item: Item): string {
    match item
    case Any => "*"
    case Entity(weak, text) => (if weak then "W/" else "") + (QUOTE + text + QUOTE)
  }

  /** An item with the blanks around it. */
  datatype Entry = Entry(before: string, item: Item, after: string) {
    predicate WellFormed() {
      && (forall c :: c in before + after ==> IsSpace(c))
      && (item.Entity? ==> ',' !in item.text)
    }
  }

  function Print(e: Entry): string { e.before + Body(e.item) + e.after }

  function PrintAll(entries: seq<Entry>): string {
    if entries == [] then ""
    else if |entries| == 1 then Print(entries[0])
    else Print(entries[0]) + "," + PrintAll(entries[1..])
  }

  /** Weak comparison: the marks of weakness do not count. */
  predicate Names(item: Item, header: string) { item.Any? || QUOTE + item.text + QUOTE == header }

  predicate Lists(entries: seq<Entry>, header: string) {
    exists i :: 0 <= i < |entries| && Names(entries[i].item, header)
  }

  lemma {:induction false} SpacesAreTrimmedLeft(blanks: string, s: string)
    requires forall c :: c in blanks ==> IsSpace(c)
    requires s != "" && !IsSpace(s[0])
    ensures TrimLeft(blanks + s) == s
    decreases |blanks|
  {
    if blanks == "" {
      assert blanks + s == s;
    } else {
      assert (blanks + s)[1..] == blanks[1..] + s;
      assert forall c :: c in blanks[1..] ==> c in blanks;
      SpacesAreTrimmedLeft(blanks[1..], s);
    }
  }

  lemma {:induction false} SpacesAreTrimmedRight(s: string, blanks: string)
    requires forall c :: c in blanks ==> IsSpace(c)
    requires s != "" && !IsSpace(s[|s| - 1])
    ensures TrimRight(s + blanks) == s
    decreases |blanks|
  {
    var n := |blanks| - 1;
    if blanks == "" {
      assert s + blanks == s;
    } else {
      assert (s + blanks)[..|s + blanks| - 1] == s + blanks[..n];
      assert (s + blanks)[|s + blanks| - 1] == blanks[n];
      SpacesAreTrimmedRight(s, blanks[..n]);
    }
  }

  lemma BodyHasNoBlanksAround(item: Item)
    ensures Body(item) != "" && !IsSpace(Body(item)[0]) && !IsSpace(Body(item)[|Body(item)| - 1])
    ensures item.Entity? && ',' !in item.text ==> ',' !in Body(item)
  {
  }

  lemma PrintedIsTrimmed(e: Entry)
    requires e.WellFormed()
    ensures TrimSpace(Print(e)) == Body(e.item)
  {
    var body := Body(e.item);
    BodyHasNoBlanksAround(e.item);
    assert Print(e) == e.before + (body + e.after);
    assert (body + e.after)[0] == body[0];
    assert forall c :: c in e.before ==> c in e.before + e.after;
    assert forall c :: c in e.after ==> c in e.before + e.after;
    SpacesAreTrimmedLeft(e.before, body + e.after);
    SpacesAreTrimmedRight(body, e.after);
  }

  lemma PrintedHasNoComma(e: Entry)
    requires e.WellFormed()
    ensures ',' !in Print(e) && Print(e) != ""
  {
    BodyHasNoBlanksAround(e.item);
    assert ',' !in Body(e.item) && ',' !in e.before + e.after;
    assert forall c :: c in Print(e) ==> c in Body(e.item) || c in e.before + e.after;
  }

  lemma {:induction false} CommaComesAfter(a: string, b: string)
    requires ',' !in a
    ensures CommaAt(a) == |a| && CommaAt(a + "," + b) == |a|
    decreases |a|
  {
    if a != "" {
      assert (a + "," + b)[1..] == a[1..] + "," + b;
      CommaComesAfter(a[1..], b);
    }
  }

  lemma SplitTakesFirst(a: string, b: string)
    requires ',' !in a
    ensures Split(a) == [a] && Split(a + "," + b) == [a] + Split(b)
  {
    CommaComesAfter(a, b);
    assert (a + "," + b)[..|a|] == a;
    assert (a + "," + b)[|a| + 1..] == b;
  }

  function Prints(entries: seq<Entry>): (parts: seq<string>)
    ensures |parts| == |entries| && forall i :: 0 <= i < |entries| ==> parts[i] == Print(entries[i])
  {
    if entries == [] then [] else [Print(entries[0])] + Prints(entries[1..])
  }

  lemma FirstEntrySplits(entries: seq<Entry>)
    requires entries != [] && entries[0].WellFormed()
    ensures PrintAll(entries) != ""
    ensures Split(PrintAll(entries)) == [Print(entries[0])] +
              if |entries| == 1 then [] else Split(PrintAll(entries[1..]))
  {
    PrintedHasNoComma(entries[0]);
    SplitTakesFirst(Print(entries[0]), PrintAll(entries[1..]));
  }

  lemma {:induction false} PrintedListSplits(entries: seq<Entry>)
    requires entries != [] && forall i :: 0 <= i < |entries| ==> entries[i].WellFormed()
    ensures PrintAll(entries) != "" && Split(PrintAll(entries)) == Prints(entries)
    decreases |entries|
  {
    FirstEntrySplits(entries);
    if |entries| > 1 { PrintedListSplits(entries[1..]); }
  }

  lemma QuotedTextDetermines(text: string, etag: string)
    requires etag != "" && !StartsWith(etag, QUOTE)
    ensures QUOTE + text + QUOTE == Quote(etag) <==> text == etag
  {
    if QUOTE + text + QUOTE == Quote(etag) {
      assert text == (QUOTE + text + QUOTE)[1..|text| + 1];
      assert etag == (QUOTE + etag + QUOTE)[1..|etag| + 1];
    }
  }

  lemma PrefixIsTrimmed(quoted: string)
    requires |quoted| >= 2 && quoted[0] == '"'
    ensures TrimPrefix("W/" + quoted, "W/") == quoted && TrimPrefix("" + quoted, "W/") == quoted
  {
    var weak := "W/" + quoted;
    assert weak[..2] == "W/" && weak[2..] == quoted;
    assert "" + quoted == quoted;
    assert quoted[..2][0] == '"';
  }

  lemma EntryIsAccepted(e: Entry, header: string)
    requires e.WellFormed()
    ensures Accepts(Print(e), header) <==> Names(e.item, header)
  {
    PrintedIsTrimmed(e);
    match e.item {
      case Any =>
      case Entity(weak, text) =>
        var quoted := QUOTE + text + QUOTE;
        PrefixIsTrimmed(quoted);
        assert |Body(e.item)| >= 2;
    }
  }

  /**
   * For every list of comma-free entity-tags, printed with any blanks around them, and every
   * validator, the request matches exactly if the list holds a star or a tag that weakly equals
   * the validator; an empty list and an empty validator never match.
   */
  lemma PrintedListMatches(entries: seq<Entry>, etag: string)
    requires forall i :: 0 <= i < |entries| ==> entries[i].WellFormed()
    ensures Matched(PrintAll(entries), Quote(etag)) <==> etag != "" && Lists(entries, Quote(etag))
    ensures etag != "" && !StartsWith(etag, QUOTE) ==>
              (Lists(entries, Quote(etag)) <==>
               exists i :: 0 <= i < |entries| && (entries[i].item.Any? || entries[i].item.text == etag))
  {
    if entries != [] && etag != "" {
      PrintedListSplits(entries);
      var parts := Split(PrintAll(entries));
      forall i | 0 <= i < |entries| ensures Accepts(parts[i], Quote(etag)) <==> Names(entries[i].item, Quote(etag)) {
        EntryIsAccepted(entries[i], Quote(etag));
      }
      SameAnswers(parts, entries, Quote(etag));
    }
    if etag != "" && !StartsWith(etag, QUOTE) { WeakComparison(entries, etag); }
  }

  /** Blanks as a header may have them, and tags without commas (section 5.6.1 of RFC 9110). */
  predicate IsHeaderEntry(e: Entry) {
    (forall c :: c in e.before + e.after ==> c == ' ' || c == '\t') && (e.item.Entity? ==> ',' !in e.item.text)
  }

  /**
   * For every list as a request may send it: a stored validator matches exactly if the list holds a
   * star or a tag of the same text, weak or not, whether the store quotes its validators or not.
   */
  lemma HeaderListMatches(entries: seq<Entry>, text: string)
    requires forall i :: 0 <= i < |entries| ==> IsHeaderEntry(entries[i])
    requires text != "" && text[0] != '"'
    ensures Matched(PrintAll(entries), Quote(text)) <==>
            exists i :: 0 <= i < |entries| && (entries[i].item == Any || entries[i].item.text == text)
    ensures Matched(PrintAll(entries), Quote("\"" + text + "\"")) <==>
            exists i :: 0 <= i < |entries| && (entries[i].item == Any || entries[i].item.text == text)
  {
    assert !StartsWith(text, QUOTE) && Quote("\"" + text + "\"") == Quote(text);
    PrintedListMatches(entries, text);
  }

  lemma WeakComparison(entries: seq<Entry>, etag: string)
    requires etag != "" && !StartsWith(etag, QUOTE)
    ensures Lists(entries, Quote(etag)) <==>
            exists i :: 0 <= i < |entries| && (entries[i].item.Any? || entries[i].item.text == etag)
  {
    forall i | 0 <= i < |entries|
      ensures Names(entries[i].item, Quote(etag)) <==> entries[i].item.Any? || entries[i].item.text == etag
    {
      if entries[i].item.Entity? { QuotedTextDetermines(entries[i].item.text, etag); }
    }
  }

  lemma SameAnswers(parts: seq<string>, entries: seq<Entry>, header: string)
    requires |parts| == |entries|
    requires forall i :: 0 <= i < |entries| ==> (Accepts(parts[i], header) <==> Names(entries[i].item, header))
    ensures AnyAccepted(parts, header) <==> Lists(entries, header)
  {
  }

  /** A validator with a comma in it is cut up by the matcher: only a star can match it. */
  lemma CommaNeverMatches(ifNoneMatch: string, etag: string)
    requires ',' in etag && Matched(ifNoneMatch, Quote(etag))
    ensures exists p :: p in Split(ifNoneMatch) && TrimSpace(p) == "*"
  {
    var parts := Split(ifNoneMatch);
    var i :| 0 <= i < |parts| && Accepts(parts[i], Quote(etag));
    TrimmedIsPart(parts[i]);
    assert ',' in Quote(etag);
    assert TrimSpace(parts[i]) == "*";
    assert parts[i] in parts;
  }

  lemma TrimmedIsPart(s: string)
    ensures forall c :: c in TrimPrefix(TrimSpace(s), "W/") ==> c in s
  {
    TrimLeftIsPart(s);
    TrimRightIsPart(TrimLeft(s));
  }

  lemma {:induction false} TrimLeftIsPart(s: string)
    ensures forall c :: c in TrimLeft(s) ==> c in s
    decreases |s|
  {
    if s != "" && IsSpace(s[0]) { TrimLeftIsPart(s[1..]); }
  }

  lemma {:induction false} TrimRightIsPart(s: string)
    ensures forall c :: c in TrimRight(s) ==> c in s
    decreases |s|
  {
    if s != "" && IsSpace(s[|s| - 1]) { TrimRightIsPart(s[..|s| - 1]); }
  }
}
