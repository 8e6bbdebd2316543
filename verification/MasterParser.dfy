/** A reader of master playlists in the format of RFC 8216 (sections 4.1, 4.2 and 4.3.4.2),
    written independently of the printer, and the proof that it undoes the printer. */
module MasterParser {
  import opened Basics
  import opened Playlist

  datatype AttrValue = Quoted(text: string) | Bare(text: string)

  datatype Attr = Attr(name: string, value: AttrValue)

  predicate IsNameChar(c: char) {
    'A' <= c <= 'Z' || '0' <= c <= '9' || c == '-'
  }

  predicate IsAttrName(s: string) {
    s != "" && forall c :: c in s ==> IsNameChar(c)
  }

  /** What may stand between the quotes of a quoted string. */
  predicate IsQuotable(s: string) {
    '"' !in s && '\r' !in s && '\n' !in s
  }

  predicate IsUriLine(line: string) {
    !IsTagOrBlank(line) && '\r' !in line && '\n' !in line
  }

  // ---- The attribute list ----

  /** The value at the front of `s` and the text after it. */
  function ParseValue(s: string): (r: Option<(AttrValue, string)>)
    ensures r.Some? ==> |r.value.1| <= |s|
    ensures r.Some? && r.value.0.Quoted? ==> IsQuotable(r.value.0.text)
  {
    if s != "" && s[0] == '"' then
      var body := s[1..];
      var q := IndexOf(body, '"');
      if q < |body| && IsQuotable(body[..q]) then Some((Quoted(body[..q]), body[q + 1..])) else None
    else
      var n := IndexOf(s, ',');
      if n == 0 then None else Some((Bare(s[..n]), s[n..]))
  }

  function ParseAttributes(s: string): Option<seq<Attr>>
    decreases |s|
  {
    var eq := IndexOf(s, '=');
    if eq == |s| || !IsAttrName(s[..eq]) then None
    else
      match ParseValue(s[eq + 1..])
      case None => None
      case Some((value, rest)) =>
        if rest == "" then Some([Attr(s[..eq], value)])
        else if rest[0] != ',' then None
        else
          match ParseAttributes(rest[1..])
          case None => None
          case Some(more) => Some([Attr(s[..eq], value)] + more)
  }

  function Lookup(attrs: seq<Attr>, name: string): (r: Option<AttrValue>)
    ensures r.Some? ==> exists a :: a in attrs && a.value == r.value
  {
    if attrs == [] then None
    else if attrs[0].name == name then Some(attrs[0].value)
    else Lookup(attrs[1..], name)
  }

  // ---- Entries ----

  function ParseNumber(value: Option<AttrValue>): Option<nat> {
    if value.Some? && value.value.Bare? then ParseDecimal(value.value.text) else None
  }

  function ParseResolution(value: Option<AttrValue>): Option<(nat, nat)> {
    if !value.Some? || !value.value.Bare? then None
    else
      var s := value.value.text;
      var x := IndexOf(s, 'x');
      if x == |s| then None
      else
        var w, h := ParseDecimal(s[..x]), ParseDecimal(s[x + 1..]);
        if w.Some? && h.Some? then Some((w.value, h.value)) else None
  }

  function ParseEntry(attributes: string, uri: string): Option<VariantInfo> {
    match ParseAttributes(attributes)
    case None => None
    case Some(attrs) =>
      var bandwidth := ParseNumber(Lookup(attrs, "BANDWIDTH"));
      var resolution := ParseResolution(Lookup(attrs, "RESOLUTION"));
      var name := Lookup(attrs, "NAME");
      if bandwidth.Some? && resolution.Some? && name.Some? && name.value.Quoted? && IsUriLine(uri) then
        Some(VariantInfo(name.value.text, bandwidth.value, resolution.value.0, resolution.value.1, uri))
      else None
  }

  /** A stream tag takes the next line as its URI; other tags, comments and blank lines are skipped. */
  function ParseEntries(lines: seq<string>): Option<seq<VariantInfo>> {
    if lines == [] then Some([])
    else if STREAM_INF <= lines[0] then
      if |lines| < 2 then None
      else
        var entry, more := ParseEntry(lines[0][|STREAM_INF|..], lines[1]), ParseEntries(lines[2..]);
        if entry.Some? && more.Some? then Some([entry.value] + more.value) else None
    else if IsTagOrBlank(lines[0]) then ParseEntries(lines[1..])
    else None
  }

  function ParseMaster(text: string): Option<seq<VariantInfo>> {
    var lines := ScanLines(text);
    if lines != [] && lines[0] == "#EXTM3U" then ParseEntries(lines[1..]) else None
  }

  // ---- What can be read back ----

  predicate Printable(v: VariantInfo) {
    && v.bandwidth >= 0 && v.width >= 0 && v.height >= 0
    && IsQuotable(v.name) && IsUriLine(v.path)
  }

  predicate AllQuotable(attrs: seq<Attr>) {
    forall a :: a in attrs && a.value.Quoted? ==> IsQuotable(a.value.text)
  }

  lemma {:induction false} AttributesQuotable(s: string)
    ensures ParseAttributes(s).Some? ==> AllQuotable(ParseAttributes(s).value)
    decreases |s|
  {
    var eq := IndexOf(s, '=');
    if eq < |s| {
      var value := ParseValue(s[eq + 1..]);
      if value.Some? && value.value.1 != "" {
        AttributesQuotable(value.value.1[1..]);
      }
    }
  }

  lemma {:induction false} EntriesPrintable(lines: seq<string>)
    ensures ParseEntries(lines).Some? ==> forall v :: v in ParseEntries(lines).value ==> Printable(v)
  {
    if lines != [] {
      if STREAM_INF <= lines[0] && |lines| >= 2 {
        EntriesPrintable(lines[2..]);
        AttributesQuotable(lines[0][|STREAM_INF|..]);
      } else {
        EntriesPrintable(lines[1..]);
      }
    }
  }

  // ---- Reading what was printed ----

  /** Text that stands for itself as an unquoted value. */
  predicate IsBareText(s: string) {
    s != "" && ',' !in s && s[0] != '"'
  }

  predicate IsAttr(a: Attr) {
    IsAttrName(a.name) && if a.value.Quoted? then IsQuotable(a.value.text) else IsBareText(a.value.text)
  }

  function PrintValue(value: AttrValue): string {
    if value.Quoted? then "\"" + value.text + "\"" else value.text
  }

  function PrintAttributes(attrs: seq<Attr>): string
    requires attrs != []
  {
    var a := attrs[0];
    if |attrs| == 1 then a.name + "=" + PrintValue(a.value)
    else a.name + "=" + (PrintValue(a.value) + ("," + PrintAttributes(attrs[1..])))
  }

  lemma ValueBack(value: AttrValue, rest: string)
    requires if value.Quoted? then IsQuotable(value.text) else IsBareText(value.text)
    requires rest == "" || rest[0] == ','
    ensures ParseValue(PrintValue(value) + rest) == Some((value, rest))
  {
    var s := PrintValue(value) + rest;
    if value.Quoted? {
      assert s[1..] == value.text + ['"'] + rest;
      IndexOfAfter(value.text, '"', rest);
      assert s[1..][..|value.text|] == value.text && s[1..][|value.text| + 1..] == rest;
    } else {
      assert s[0] == value.text[0];
      if rest != "" {
        assert s == value.text + [','] + rest[1..];
        IndexOfAfter(value.text, ',', rest[1..]);
      } else {
        assert s == value.text;
        assert IndexOf(s, ',') == |s|;
      }
      assert s[..|value.text|] == value.text && s[|value.text|..] == rest;
    }
  }

  /** Reading one attribute: the name and the equals sign go, the value is read, and the rest follows a comma. */
  lemma AttributeStep(name: string, value: AttrValue, rest: string)
    requires IsAttr(Attr(name, value)) && (rest == "" || rest[0] == ',')
    ensures var s := name + "=" + (PrintValue(value) + rest);
            ParseAttributes(s)
            == if rest == "" then Some([Attr(name, value)])
               else match ParseAttributes(rest[1..])
                    case None => None
                    case Some(more) => Some([Attr(name, value)] + more)
  {
    var tail := PrintValue(value) + rest;
    var s := name + "=" + tail;
    assert s == name + ['='] + tail;
    assert '=' !in name;
    IndexOfAfter(name, '=', tail);
    assert s[..|name|] == name && s[|name| + 1..] == tail;
    ValueBack(value, rest);
  }

  lemma {:induction false} AttributesBack(attrs: seq<Attr>)
    requires attrs != [] && forall a :: a in attrs ==> IsAttr(a)
    ensures ParseAttributes(PrintAttributes(attrs)) == Some(attrs)
  {
    var a, more := attrs[0], attrs[1..];
    assert a in attrs && attrs == [a] + more;
    if more == [] {
      AttributeStep(a.name, a.value, "");
      assert PrintValue(a.value) + "" == PrintValue(a.value);
      assert attrs == [Attr(a.name, a.value)];
    } else {
      var rest := "," + PrintAttributes(more);
      assert rest[1..] == PrintAttributes(more);
      AttributesBack(more);
      AttributeStep(a.name, a.value, rest);
    }
  }

  lemma ResolutionBack(width: nat, height: nat)
    ensures var value := Decimal(width) + "x" + Decimal(height);
            ParseResolution(Some(Bare(value))) == Some((width, height))
  {
    var w, h := Decimal(width), Decimal(height);
    assert w + "x" + h == w + ['x'] + h;
    assert 'x' !in w;
    IndexOfAfter(w, 'x', h);
    assert (w + "x" + h)[..|w|] == w && (w + "x" + h)[|w| + 1..] == h;
    ParseOfDecimal(width);
    ParseOfDecimal(height);
  }

  /** A printed number or resolution: no comma and no quote in front. */
  lemma PrintedValuesAreBare(n: nat, m: nat)
    ensures IsBareText(Decimal(n))
    ensures IsBareText(Decimal(n) + "x" + Decimal(m))
  {}

  function StreamAttrList(v: VariantInfo): seq<Attr>
    requires Printable(v)
  {
    [Attr("BANDWIDTH", Bare(Decimal(v.bandwidth))),
     Attr("RESOLUTION", Bare(Decimal(v.width) + "x" + Decimal(v.height))),
     Attr("NAME", Quoted(v.name))]
  }

  lemma AttributeNames()
    ensures IsAttrName("BANDWIDTH") && IsAttrName("RESOLUTION") && IsAttrName("NAME")
  {}

  lemma PrintStep(a: Attr, rest: seq<Attr>)
    ensures PrintAttributes([a] + rest)
            == if rest == [] then a.name + "=" + PrintValue(a.value)
               else a.name + "=" + (PrintValue(a.value) + ("," + PrintAttributes(rest)))
  {}

  lemma PrintThree(a: Attr, b: Attr, c: Attr)
    ensures PrintAttributes([a, b, c])
            == a.name + "=" + (PrintValue(a.value) + (","
               + (b.name + "=" + (PrintValue(b.value) + (","
               + (c.name + "=" + PrintValue(c.value)))))))
  {
    PrintStep(a, [b, c]);
    PrintStep(b, [c]);
    PrintStep(c, []);
    assert [a] + [b, c] == [a, b, c] && [b] + [c] == [b, c] && [c] + [] == [c];
  }

  lemma StreamAttributesPrinted(v: VariantInfo)
    requires Printable(v)
    ensures StreamAttributes(v) == PrintAttributes(StreamAttrList(v))
  {
    var list := StreamAttrList(v);
    PrintThree(list[0], list[1], list[2]);
  }

  lemma StreamAttributesBack(v: VariantInfo)
    requires Printable(v)
    ensures ParseAttributes(StreamAttributes(v)) == Some(StreamAttrList(v))
  {
    AttributeNames();
    PrintedValuesAreBare(v.width, v.height);
    PrintedValuesAreBare(v.bandwidth, 0);
    StreamAttributesPrinted(v);
    AttributesBack(StreamAttrList(v));
  }

  lemma LookupStep(a: Attr, rest: seq<Attr>, name: string)
    ensures Lookup([a] + rest, name) == if a.name == name then Some(a.value) else Lookup(rest, name)
  {}

  lemma LookupInThree(a: Attr, b: Attr, c: Attr, name: string)
    ensures Lookup([a, b, c], name)
            == if a.name == name then Some(a.value)
               else if b.name == name then Some(b.value)
               else if c.name == name then Some(c.value)
               else None
  {
    LookupStep(a, [b, c], name);
    LookupStep(b, [c], name);
    LookupStep(c, [], name);
    assert [a] + [b, c] == [a, b, c] && [b] + [c] == [b, c];
  }

  lemma EntryBack(v: VariantInfo)
    requires Printable(v)
    ensures ParseEntry(StreamAttributes(v), v.path) == Some(v)
  {
    StreamAttributesBack(v);
    var list := StreamAttrList(v);
    LookupInThree(list[0], list[1], list[2], "BANDWIDTH");
    LookupInThree(list[0], list[1], list[2], "RESOLUTION");
    LookupInThree(list[0], list[1], list[2], "NAME");
    ResolutionBack(v.width, v.height);
    ParseOfDecimal(v.bandwidth);
  }

  lemma StreamTagSplits(v: VariantInfo)
    ensures STREAM_INF <= StreamInf(v) && StreamInf(v)[|STREAM_INF|..] == StreamAttributes(v)
  {}

  lemma {:induction false} EntriesBack(variants: seq<VariantInfo>)
    requires forall v :: v in variants ==> Printable(v)
    ensures ParseEntries(EntryLines(variants)) == Some(variants)
  {
    if variants != [] {
      var v, rest := variants[0], variants[1..];
      assert variants == [v] + rest;
      EntryLinesFromFront(v, rest);
      EntriesBack(rest);
      StreamTagSplits(v);
      EntryBack(v);
      assert EntryLines(variants)[2..] == EntryLines(rest);
    }
  }

  lemma EndsInQuote(front: string)
    requires '\n' !in front
    ensures IsScannedLine(front + "\"")
  {}

  lemma AttributesScanned(b: string, w: string, h: string, name: string)
    requires '\n' !in b && '\n' !in w && '\n' !in h && '\n' !in name
    ensures IsScannedLine(STREAM_INF + ("BANDWIDTH" + "=" + (b + (","
              + ("RESOLUTION" + "=" + (w + "x" + h + (","
              + ("NAME" + "=" + ("\"" + name + "\"")))))))))
  {
    var front := STREAM_INF + ("BANDWIDTH" + "=" + b + "," + "RESOLUTION" + "=" + w + "x" + h + ","
                               + "NAME" + "=\"" + name);
    assert front + "\"" == STREAM_INF + ("BANDWIDTH" + "=" + (b + (","
                             + ("RESOLUTION" + "=" + (w + "x" + h + (","
                             + ("NAME" + "=" + ("\"" + name + "\""))))))));
    EndsInQuote(front);
  }

  lemma StreamInfScanned(v: VariantInfo)
    requires Printable(v)
    ensures IsScannedLine(StreamInf(v))
  {
    AttributesScanned(FormatInt(v.bandwidth), FormatInt(v.width), FormatInt(v.height), v.name);
  }

  lemma {:induction false} EntryLinesScanned(variants: seq<VariantInfo>)
    requires forall v :: v in variants ==> Printable(v)
    ensures forall line :: line in EntryLines(variants) ==> IsScannedLine(line)
  {
    if variants != [] {
      var front, last := variants[..|variants| - 1], variants[|variants| - 1];
      EntryLinesScanned(front);
      StreamInfScanned(last);
      assert EntryLines(variants) == EntryLines(front) + Entry(last);
    }
  }

  lemma OtherTagSkipped(tag: string, lines: seq<string>)
    requires IsTagOrBlank(tag) && !(STREAM_INF <= tag)
    ensures ParseEntries([tag] + lines) == ParseEntries(lines)
  {}

  lemma VersionIsNotStream()
    ensures !(STREAM_INF <= "#EXT-X-VERSION:3")
  {}

  lemma PrintedParsesBack(variants: seq<VariantInfo>)
    requires forall v :: v in variants ==> Printable(v)
    ensures ParseMaster(MasterText(variants)) == Some(variants)
  {
    var lines := MasterLines(variants);
    EntryLinesScanned(variants);
    assert IsScannedLine("#EXTM3U") && IsScannedLine("#EXT-X-VERSION:3");
    ScanLinesOfUnlines(lines);
    EntriesBack(variants);
    VersionIsNotStream();
    OtherTagSkipped("#EXT-X-VERSION:3", EntryLines(variants));
    assert lines[1..] == ["#EXT-X-VERSION:3"] + EntryLines(variants);
  }

  /** The printer's output reads back as the very list that was printed, numbers included,
      exactly when every name and path is one the format can carry. */
  lemma MasterRoundTrip(variants: seq<VariantInfo>)
    ensures ParseMaster(MasterText(variants)) == Some(variants)
            <==> forall v :: v in variants ==> Printable(v)
  {
    if forall v :: v in variants ==> Printable(v) {
      PrintedParsesBack(variants);
    } else if ParseMaster(MasterText(variants)) == Some(variants) {
      EntriesPrintable(ScanLines(MasterText(variants))[1..]);
    }
  }
}
