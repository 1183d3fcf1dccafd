/** Conditional requests on a stored pointer: `If-Match` and `If-None-Match` of RFC 9110, sections 13.1.1,
    13.1.2 and 13.2.2. A pointer's entity tag is its `seq`, quoted. */
module Preconditions {
  import opened Wrappers
  import Decimal

  /** A header line's value: visible ASCII, or bytes `to_str` refuses. */
  datatype HeaderValue = Visible(text: string) | Opaque

  /** The values of every line of each header; no line, no condition. */
  datatype Headers = Headers(ifMatch: seq<HeaderValue>, ifNoneMatch: seq<HeaderValue>)

  function PointerEtag(seqNo: nat): string {
    "\"" + Decimal.Digits(seqNo) + "\""
  }

  /** `split(',')`. */
  function Split(s: string): (parts: seq<string>)
    ensures |parts| > 0
  {
    if s == [] then [""]
    else
      var rest := Split(s[1..]);
      if s[0] == ',' then [""] + rest else [[s[0]] + rest[0]] + rest[1..]
  }

  predicate Blank(c: char) {
    c == ' ' || c == '\t'
  }

  /** `trim`, on visible ASCII. */
  function Trim(s: string): string {
    if s != [] && Blank(s[0]) then Trim(s[1..])
    else if s != [] && Blank(s[|s| - 1]) then Trim(s[..|s| - 1])
    else s
  }

  function TrimEach(parts: seq<string>): (trimmed: seq<string>)
    ensures |trimmed| == |parts| && forall i :: 0 <= i < |parts| ==> trimmed[i] == Trim(parts[i])
  {
    if parts == [] then [] else [Trim(parts[0])] + TrimEach(parts[1..])
  }

  /** The tags of all lines, or `None` when a line is not visible ASCII. */
  function Tags(values: seq<HeaderValue>): Option<seq<string>> {
    if values == [] then Some([])
    else
      var rest := Tags(values[1..]);
      if values[0].Opaque? || rest.None? then None
      else Some(TrimEach(Split(values[0].text)) + rest.value)
  }

  function StripWeak(tag: string): string {
    if "W/" <= tag then tag[2..] else tag
  }

  predicate Matches(tags: seq<string>, etag: string) {
    exists t :: t in tags && (t == "*" || t == etag)
  }

  predicate WeaklyMatches(tags: seq<string>, etag: string) {
    exists t :: t in tags && (t == "*" || StripWeak(t) == etag)
  }

  /** Whether the preconditions hold for the served pointer's tag (`None`: no pointer served). */
  predicate PreconditionsHold(headers: Headers, served: Option<string>) {
    && (headers.ifMatch != [] ==>
      var tags := Tags(headers.ifMatch);
      tags.Some? && served.Some? && Matches(tags.value, served.value))
    && (headers.ifNoneMatch != [] ==>
      var tags := Tags(headers.ifNoneMatch);
      tags.Some? && (served.Some? ==> !WeaklyMatches(tags.value, served.value)))
  }

  function ServedTag(served: Option<nat>): Option<string> {
    if served.Some? then Some(PointerEtag(served.value)) else None
  }

  // ---- What the header texts mean -------------------------------------------------------------

  lemma {:induction false} SplitNoComma(s: string)
    requires ',' !in s
    ensures Split(s) == [s]
  {
    if s != [] {
      assert s == [s[0]] + s[1..];
      SplitNoComma(s[1..]);
    }
  }

  lemma {:induction false} SplitFirst(a: string, b: string)
    requires ',' !in a
    ensures Split(a + "," + b) == [a] + Split(b)
  {
    var s := a + "," + b;
    if a == [] {
      assert s[1..] == b;
    } else {
      assert s[1..] == a[1..] + "," + b;
      SplitFirst(a[1..], b);
      assert s[0] == a[0] != ',' && [a[0]] + a[1..] == a;
    }
  }

  lemma EtagInjective(m: nat, n: nat)
    requires PointerEtag(m) == PointerEtag(n)
    ensures m == n
  {
    var e, f := PointerEtag(m), PointerEtag(n);
    assert e[1..|e| - 1] == Decimal.Digits(m) && f[1..|f| - 1] == Decimal.Digits(n);
    Decimal.DisplayInjective(m, n);
  }

  /** An entity tag as section 8.8.3 of RFC 9110 writes it, or the `*` that stands for any. */
  datatype Tag = Strong(n: nat) | Weak(n: nat) | Star

  function TagText(tag: Tag): string {
    match tag
    case Strong(n) => PointerEtag(n)
    case Weak(n) => "W/" + PointerEtag(n)
    case Star => "*"
  }

  predicate Blanks(s: string) {
    forall i :: 0 <= i < |s| ==> Blank(s[i])
  }

  /** A list element with the blanks around it. */
  datatype Element = Element(before: string, tag: Tag, after: string) {
    predicate Valid() { Blanks(before) && Blanks(after) }

    function Text(): string { before + TagText(tag) + after }
  }

  predicate ValidLine(line: seq<Element>) {
    line != [] && forall e :: e in line ==> e.Valid()
  }

  predicate ValidLines(lines: seq<seq<Element>>) {
    forall i :: 0 <= i < |lines| ==> ValidLine(lines[i])
  }

  function LineText(line: seq<Element>): string {
    if line == [] then "" else if |line| == 1 then line[0].Text() else line[0].Text() + "," + LineText(line[1..])
  }

  function LineTags(line: seq<Element>): seq<Tag> {
    seq(|line|, i requires 0 <= i < |line| => line[i].tag)
  }

  /** Header lines of tags, and the tags they hold together. */
  function HeaderLines(lines: seq<seq<Element>>): seq<HeaderValue> {
    seq(|lines|, i requires 0 <= i < |lines| => Visible(LineText(lines[i])))
  }

  function TagsIn(lines: seq<seq<Element>>): seq<Tag> {
    if lines == [] then [] else LineTags(lines[0]) + TagsIn(lines[1..])
  }

  function Texts(tags: seq<Tag>): seq<string> {
    seq(|tags|, i requires 0 <= i < |tags| => TagText(tags[i]))
  }

  lemma TagIsOneWord(tag: Tag)
    ensures var t := TagText(tag); t != "" && ',' !in t && !Blank(t[0]) && !Blank(t[|t| - 1])
  {
    if !tag.Star? {
      var e := PointerEtag(tag.n);
      assert e[0] == '"' && e[|e| - 1] == '"';
      forall i | 0 <= i < |e| ensures e[i] != ',' {
        if 0 < i < |e| - 1 { assert e[i] == Decimal.Digits(tag.n)[i - 1]; }
      }
      if tag.Weak? {
        var t := TagText(tag);
        assert t[|t| - 1] == e[|e| - 1] && forall i :: 2 <= i < |t| ==> t[i] == e[i - 2];
      }
    }
  }

  lemma {:induction false} TrimPadded(before: string, word: string, after: string)
    requires Blanks(before) && Blanks(after) && word != "" && !Blank(word[0]) && !Blank(word[|word| - 1])
    ensures Trim(before + word + after) == word
    decreases |before| + |after|
  {
    var s := before + word + after;
    if before != "" {
      TrimPadded(before[1..], word, after);
      assert s[0] == before[0] && s[1..] == before[1..] + word + after;
    } else if after != "" {
      var less := after[..|after| - 1];
      TrimPadded(before, word, less);
      assert s[0] == word[0] && s[|s| - 1] == after[|after| - 1] && s[..|s| - 1] == before + word + less;
    } else {
      assert s == word;
    }
  }

  lemma ElementParsed(e: Element)
    requires e.Valid()
    ensures ',' !in e.Text() && Trim(e.Text()) == TagText(e.tag)
  {
    TagIsOneWord(e.tag);
    TrimPadded(e.before, TagText(e.tag), e.after);
  }

  lemma {:induction false} LineParsed(line: seq<Element>)
    requires ValidLine(line)
    ensures TrimEach(Split(LineText(line))) == Texts(LineTags(line))
  {
    hide Trim, TagText, Split, TrimEach;
    ElementParsed(line[0]);
    TrimEachCons(line[0].Text(), []);
    if |line| == 1 {
      SplitNoComma(LineText(line));
      assert Texts(LineTags(line)) == [TagText(line[0].tag)];
    } else {
      var rest := line[1..];
      LineParsed(rest);
      SplitFirst(line[0].Text(), LineText(rest));
      TrimEachCons(line[0].Text(), Split(LineText(rest)));
      assert Texts(LineTags(line)) == [TagText(line[0].tag)] + Texts(LineTags(rest));
    }
  }

  lemma TrimEachCons(part: string, parts: seq<string>)
    ensures TrimEach([part] + parts) == [Trim(part)] + TrimEach(parts) && TrimEach([part]) == [Trim(part)]
  {
    assert ([part] + parts)[1..] == parts;
  }

  /** However the tags are spread over lines and padded, parsing gives them back in order. */
  lemma {:induction false} LinesParsed(lines: seq<seq<Element>>)
    requires ValidLines(lines)
    ensures Tags(HeaderLines(lines)) == Some(Texts(TagsIn(lines)))
  {
    hide ValidLine, LineText, Split, TrimEach, LineTags, Texts;
    if lines == [] {
      TextsConcat([], []);
    } else {
      LineParsed(lines[0]);
      LinesParsed(lines[1..]);
      assert HeaderLines(lines)[1..] == HeaderLines(lines[1..]);
      TextsConcat(LineTags(lines[0]), TagsIn(lines[1..]));
    }
  }

  lemma TextsConcat(a: seq<Tag>, b: seq<Tag>)
    ensures Texts(a + b) == Texts(a) + Texts(b) && Texts([]) == []
  {
  }

  lemma TagMatches(tag: Tag, n: nat)
    ensures TagText(tag) == "*" <==> tag == Star
    ensures TagText(tag) == PointerEtag(n) <==> tag == Strong(n)
    ensures StripWeak(TagText(tag)) == PointerEtag(n) <==> tag == Strong(n) || tag == Weak(n)
  {
    assert PointerEtag(n)[0] == '"';
    if !tag.Star? {
      var e := PointerEtag(tag.n);
      assert e[0] == '"' && ("W/" + e)[2..] == e;
      if e == PointerEtag(n) { EtagInjective(tag.n, n); }
    }
  }

  lemma ListedTag(tags: seq<Tag>, n: nat)
    ensures Matches(Texts(tags), PointerEtag(n)) <==> exists t :: t in tags && (t == Star || t == Strong(n))
    ensures WeaklyMatches(Texts(tags), PointerEtag(n)) <==>
            exists t :: t in tags && (t == Star || t == Strong(n) || t == Weak(n))
  {
    hide TagText, StripWeak, PointerEtag;
    var texts := Texts(tags);
    forall t | t in texts ensures exists tag :: tag in tags && t == TagText(tag) {
      var i :| 0 <= i < |texts| && texts[i] == t;
      assert tags[i] in tags;
    }
    forall tag | tag in tags ensures TagText(tag) in texts {
      var i :| 0 <= i < |tags| && tags[i] == tag;
      assert texts[i] == TagText(tag);
    }
    forall tag ensures TagText(tag) == "*" <==> tag == Star
      ensures TagText(tag) == PointerEtag(n) <==> tag == Strong(n)
      ensures StripWeak(TagText(tag)) == PointerEtag(n) <==> tag == Strong(n) || tag == Weak(n)
    {
      TagMatches(tag, n);
    }
  }

  /** What the two headers mean, on any number of lines: `If-Match` that a pointer is served and its tag is listed,
      compared strongly, or any is; `If-None-Match` that no served tag is listed, compared weakly, nor any. */
  lemma PreconditionsMean(ifMatch: seq<seq<Element>>, ifNoneMatch: seq<seq<Element>>, served: Option<nat>)
    requires ValidLines(ifMatch) && ValidLines(ifNoneMatch)
    ensures PreconditionsHold(Headers(HeaderLines(ifMatch), HeaderLines(ifNoneMatch)), ServedTag(served)) <==>
      && (ifMatch != [] ==>
            served.Some? && exists t :: t in TagsIn(ifMatch) && (t == Star || t == Strong(served.value)))
      && (ifNoneMatch != [] && served.Some? ==>
            !exists t :: t in TagsIn(ifNoneMatch)
                         && (t == Star || t == Strong(served.value) || t == Weak(served.value)))
  {
    LinesParsed(ifMatch);
    LinesParsed(ifNoneMatch);
    if served.Some? {
      ListedTag(TagsIn(ifMatch), served.value);
      ListedTag(TagsIn(ifNoneMatch), served.value);
    }
  }

  lemma {:induction false} OpaqueHasNoTags(values: seq<HeaderValue>)
    requires Opaque in values
    ensures Tags(values) == None
  {
    if values[0] != Opaque {
      assert Opaque in values[1..];
      OpaqueHasNoTags(values[1..]);
    }
  }

  /** A line that is not visible ASCII fails the request, whatever else is sent and served. */
  lemma OpaqueLineFails(headers: Headers, served: Option<nat>)
    requires Opaque in headers.ifMatch || Opaque in headers.ifNoneMatch
    ensures !PreconditionsHold(headers, ServedTag(served))
  {
    if Opaque in headers.ifMatch { OpaqueHasNoTags(headers.ifMatch); } else { OpaqueHasNoTags(headers.ifNoneMatch); }
  }

  /** `If-Match` with one pointer tag, however padded. */
  predicate NamesOneTag(headers: Headers, n: nat) {
    headers.ifMatch != [] && Tags(headers.ifMatch) == Some([PointerEtag(n)])
  }

  /** `If-None-Match` with `*`, alone or among others, on any line. */
  predicate RefusesAny(headers: Headers) {
    Tags(headers.ifNoneMatch).Some? && "*" in Tags(headers.ifNoneMatch).value
  }

  /** A request naming one base tag passes only while that seq is served, whatever else it sends. */
  lemma OneTagMeansServed(headers: Headers, n: nat, served: Option<nat>)
    requires NamesOneTag(headers, n) && PreconditionsHold(headers, ServedTag(served))
    ensures served == Some(n)
  {
    assert PointerEtag(n)[0] == '"';
    EtagInjective(n, served.value);
  }

  /** A request with `If-None-Match: *` passes only while no pointer is served. */
  lemma StarMeansNoneServed(headers: Headers, served: Option<nat>)
    requires RefusesAny(headers) && PreconditionsHold(headers, ServedTag(served))
    ensures served.None?
  {
    assert headers.ifNoneMatch != [] && "*" in Tags(headers.ifNoneMatch).value;
  }
}
