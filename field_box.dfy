/**
 * One form field: its starting value, the widget its schema type selects, the
 * parsers that turn what the user types into the value sent up to the form,
 * and the text the widgets display for a value.
 */
module FieldBox {
  import opened Wrappers
  import opened JsString
  import opened JsValue

  /** `field.default || ""`: the value a field starts with. */
  function InitialValue(field: Value): (v: Value)
    ensures Truthy(GetProp(field, "default")) ==> v == GetProp(field, "default")
    ensures !Truthy(GetProp(field, "default")) ==> v == Str("")
  {
    Or(GetProp(field, "default"), Str(""))
  }

  /** `field.default !== undefined`: whether the "Default:" hint is shown. */
  predicate ShowsDefault(field: Value)
    ensures ShowsDefault(field) ==> field.Obj? && HasKey(field.entries, "default")
  {
    GetProp(field, "default") != Undefined
  }

  /** `field.minimum !== undefined && field.maximum !== undefined`: whether the "Range:" hint is shown. */
  predicate ShowsRange(field: Value)
    ensures ShowsRange(field) ==> field.Obj? && HasKey(field.entries, "minimum") && HasKey(field.entries, "maximum")
  {
    GetProp(field, "minimum") != Undefined && GetProp(field, "maximum") != Undefined
  }

  /** The range hint tests presence, not truthiness: bounds of `0` and `0` are shown, a lone bound is not. */
  lemma ZeroRangeShown(field: Value)
    requires GetProp(field, "minimum") == Num(0)
    ensures ShowsRange(field) <==> GetProp(field, "maximum") != Undefined
  {
  }

  /** A default of `0` or `false` is shown as the hint, but the field starts empty. */
  lemma {:induction false} FalsyDefaultStartsEmpty(field: Value)
    requires GetProp(field, "default") in {Num(0), Bool(false)}
    ensures ShowsDefault(field)
    ensures InitialValue(field) == Str("")
  {
  }

  /** The special case of an array whose items are objects with a `url` property. */
  predicate IsUrlObjectArray(field: Value)
    ensures IsUrlObjectArray(field) ==>
              && GetProp(field, "type") == Str("array")
              && GetProp(field, "items").Obj?
              && GetProp(GetProp(field, "items"), "properties").Obj?
              && HasKey(GetProp(GetProp(field, "items"), "properties").entries, "url")
  {
    var items := GetProp(field, "items");
    && GetProp(field, "type") == Str("array")
    && Truthy(items)
    && GetProp(items, "type") == Str("object")
    && Truthy(GetProp(items, "properties"))
    && Truthy(GetProp(GetProp(items, "properties"), "url"))
  }

  /** The input `renderInput` produces. */
  datatype Widget =
    | EnumSelect   // a string with `enum`
    | TextInput    // a plain string, and every type not listed
    | NumberInput  // integer
    | Checkbox     // boolean
    | UrlListArea  // an array of objects with a `url`: one URL per line
    | ListArea     // any other array: comma-separated values

  /** The `switch (field.type)` of `renderInput`, with its two inner tests. */
  function WidgetOf(field: Value): (w: Widget)
    ensures var t := GetProp(field, "type");
            && (w == EnumSelect <==> t == Str("string") && Truthy(GetProp(field, "enum")))
            && (w == NumberInput <==> t == Str("integer"))
            && (w == Checkbox <==> t == Str("boolean"))
            && (w == UrlListArea <==> IsUrlObjectArray(field))
            && (w == ListArea <==> t == Str("array") && !IsUrlObjectArray(field))
            && (w == TextInput <==> t !in {Str("integer"), Str("boolean"), Str("array")}
                                    && !(t == Str("string") && Truthy(GetProp(field, "enum"))))
  {
    var t := GetProp(field, "type");
    if t == Str("string") then (if Truthy(GetProp(field, "enum")) then EnumSelect else TextInput)
    else if t == Str("integer") then NumberInput
    else if t == Str("boolean") then Checkbox
    else if t == Str("array") then (if IsUrlObjectArray(field) then UrlListArea else ListArea)
    else TextInput
  }

  /** `{type: "array", items: {type: "object", properties: {url: …}}}` gets the URL-per-line widget. */
  lemma {:induction false} UrlObjectArrayWidget(url: Value)
    requires Truthy(url)
    ensures var field := Obj([Entry("type", Str("array")),
                              Entry("items", Obj([Entry("type", Str("object")),
                                                  Entry("properties", Obj([Entry("url", url)]))]))]);
            WidgetOf(field) == UrlListArea
  {
    var props := Obj([Entry("url", url)]);
    var items := Obj([Entry("type", Str("object")), Entry("properties", props)]);
    var field := Obj([Entry("type", Str("array")), Entry("items", items)]);
    assert GetProp(props, "url") == url;
    assert "type" != "properties" && "type" != "items";
    assert GetProp(items, "type") == Str("object");
    assert items.entries[1..] == [Entry("properties", props)];
    assert Lookup(items.entries[1..], "properties") == props;
    assert GetProp(items, "properties") == props;
    assert GetProp(field, "type") == Str("array");
    assert field.entries[1..] == [Entry("items", items)];
    assert Lookup(field.entries[1..], "items") == items;
    assert GetProp(field, "items") == items;
  }

  /** `items.map((x) => x.trim())`. */
  function TrimEach(parts: seq<string>): (r: seq<string>)
    ensures |r| == |parts|
    ensures forall i :: 0 <= i < |parts| ==> r[i] == Trim(parts[i])
  {
    if |parts| == 0 then [] else [Trim(parts[0])] + TrimEach(parts[1..])
  }

  lemma {:induction false} TrimEachAt(parts: seq<string>, i: nat)
    requires i < |parts|
    ensures TrimEach(parts)[i] == Trim(parts[i])
  {
    if i > 0 {
      TrimEachAt(parts[1..], i - 1);
    }
  }

  /** `items.filter((x) => x)` on strings: the non-empty ones, in order. */
  function NonEmpty(parts: seq<string>): (r: seq<string>)
    ensures |r| <= |parts|
    ensures forall i :: 0 <= i < |r| ==> r[i] != ""
  {
    if |parts| == 0 then []
    else if parts[0] == "" then NonEmpty(parts[1..])
    else [parts[0]] + NonEmpty(parts[1..])
  }

  /** A line the list parsers can send: non-empty, trimmed, and free of the separator. */
  predicate CleanPiece(s: string, sep: char) {
    s != "" && IsTrimmed(s) && sep !in s
  }

  /** Filtering keeps only pieces that were there, so pieces free of the separator stay free of it. */
  lemma {:induction false} NonEmptyClean(parts: seq<string>, sep: char)
    requires forall i :: 0 <= i < |parts| ==> IsTrimmed(parts[i]) && sep !in parts[i]
    ensures forall i :: 0 <= i < |NonEmpty(parts)| ==> CleanPiece(NonEmpty(parts)[i], sep)
  {
    if |parts| > 0 {
      NonEmptyClean(parts[1..], sep);
    }
  }

  /** The pipeline both list parsers share: split, trim each piece, drop the empty ones. */
  function SplitTrimmed(text: string, sep: char): (r: seq<string>)
    ensures forall i :: 0 <= i < |r| ==> CleanPiece(r[i], sep)
  {
    var pieces := Split(text, sep);
    var trimmed := TrimEach(pieces);
    forall i | 0 <= i < |trimmed| ensures IsTrimmed(trimmed[i]) && sep !in trimmed[i] {
      TrimEachAt(pieces, i);
      TrimFacts(pieces[i], sep);
    }
    NonEmptyClean(trimmed, sep);
    NonEmpty(trimmed)
  }

  /** `{url}`: one entry of a URL list. */
  function UrlObject(url: string): Value {
    Obj([Entry("url", Str(url))])
  }

  function UrlObjects(urls: seq<string>): (r: seq<Value>)
    ensures |r| == |urls|
    ensures forall i :: 0 <= i < |urls| ==> r[i] == UrlObject(urls[i])
  {
    if |urls| == 0 then [] else [UrlObject(urls[0])] + UrlObjects(urls[1..])
  }

  function StrValues(ss: seq<string>): (r: seq<Value>)
    ensures |r| == |ss|
    ensures forall i :: 0 <= i < |ss| ==> r[i] == Str(ss[i])
  {
    if |ss| == 0 then [] else [Str(ss[0])] + StrValues(ss[1..])
  }

  /** What the URL textarea sends: one `{url}` per non-blank line, trimmed, in order. */
  function ParseUrlList(text: string): (r: Value)
    ensures r.Arr?
    ensures forall i :: 0 <= i < |r.items| ==>
              r.items[i].Obj? && |r.items[i].entries| == 1 && r.items[i].entries[0].key == "url"
              && r.items[i].entries[0].val.Str? && CleanPiece(r.items[i].entries[0].val.s, '\n')
  {
    Arr(UrlObjects(SplitTrimmed(text, '\n')))
  }

  /** What the comma-separated textarea sends: the non-blank pieces, trimmed, in order. */
  function ParseCommaList(text: string): (r: Value)
    ensures r.Arr?
    ensures forall i :: 0 <= i < |r.items| ==> r.items[i].Str? && CleanPiece(r.items[i].s, ',')
  {
    Arr(StrValues(SplitTrimmed(text, ',')))
  }

  /** What the number input sends: `parseInt(text) || 0`. */
  function CoerceInteger(text: string): (r: Value)
    ensures r.Num?
    ensures ParseInt(text).Some? ==> r == Num(ParseInt(text).value)
    ensures ParseInt(text).None? ==> r == Num(0)
  {
    Num(ParseIntOrZero(text))
  }

  /** `item.url || ""` for each item of the URL list; reading `url` of null or undefined throws. */
  function UrlCells(items: seq<Value>): (r: Result<seq<Value>, string>)
    ensures r.Success? ==> |r.value| == |items|
    ensures r.Success? <==> forall i :: 0 <= i < |items| ==> !IsNullish(items[i])
  {
    if |items| == 0 then Success([])
    else if IsNullish(items[0]) then Failure(TypeErrorMessage)
    else match UrlCells(items[1..])
      case Failure(m) =>
        assert exists i :: 0 <= i < |items[1..]| && IsNullish(items[1..][i]);
        Failure(m)
      case Success(rest) =>
        assert forall i :: 1 <= i < |items| ==> items[i] == items[1..][i - 1];
        Success([Or(GetProp(items[0], "url"), Str(""))] + rest)
  }

  /** The text the URL textarea shows: the URLs one per line; a value that is not an array shows nothing. */
  function UrlDisplay(value: Value): (r: Result<string, string>)
    ensures !value.Arr? ==> r == Success("")
    ensures r.Failure? <==> value.Arr? && exists i :: 0 <= i < |value.items| && IsNullish(value.items[i])
  {
    if !value.Arr? then Success("")
    else
      match UrlCells(value.items)
      case Failure(m) => Failure(m)
      case Success(cells) => Success(JoinValues(cells, "\n"))
  }

  /** The text the comma-separated textarea shows: an array joined with `", "`, anything else as it is. */
  function ListDisplay(value: Value): (r: Value)
    ensures value.Arr? ==> r.Str?
    ensures !value.Arr? ==> r == value
  {
    if value.Arr? then Str(JoinValues(value.items, ", ")) else value
  }

  lemma {:induction false} JoinStrValues(ss: seq<string>, sep: string)
    ensures JoinValues(StrValues(ss), sep) == Join(ss, sep)
  {
    var vs := StrValues(ss);
    assert seq(|vs|, i requires 0 <= i < |vs| => ElementString(vs[i])) == ss;
  }

  /** Pieces that are already non-empty and trimmed pass the trim-and-filter stage unchanged. */
  lemma {:induction false} CleanPiecesKept(parts: seq<string>)
    requires forall i :: 0 <= i < |parts| ==> parts[i] != "" && IsTrimmed(parts[i])
    ensures NonEmpty(TrimEach(parts)) == parts
  {
    if |parts| > 0 {
      var t := TrimEach(parts);
      assert t == [Trim(parts[0])] + TrimEach(parts[1..]);
      TrimTrimmed(parts[0]);
      CleanPiecesKept(parts[1..]);
      assert t[1..] == TrimEach(parts[1..]);
      assert NonEmpty(t) == [parts[0]] + NonEmpty(t[1..]);
      assert [parts[0]] + parts[1..] == parts;
    }
  }

  /** Text with nothing in it parses to no pieces. */
  lemma {:induction false} SplitTrimmedEmpty(sep: char)
    ensures SplitTrimmed("", sep) == []
  {
    assert Split("", sep) == [""];
    assert TrimEach([""]) == [""];
  }

  /** Clean lines joined with a separator split back into the same lines. */
  lemma {:induction false} CleanJoinSplits(parts: seq<string>, sep: char)
    requires forall i :: 0 <= i < |parts| ==> CleanPiece(parts[i], sep)
    ensures SplitTrimmed(Join(parts, [sep]), sep) == parts
  {
    if |parts| == 0 {
      CleanJoinSplitsEmpty(parts, sep);
    } else {
      CleanJoinSplitsNonEmpty(parts, sep, Join(parts, [sep]));
    }
  }

  lemma {:induction false} CleanJoinSplitsEmpty(parts: seq<string>, sep: char)
    requires |parts| == 0
    ensures SplitTrimmed(Join(parts, [sep]), sep) == parts
  {
    assert Join(parts, [sep]) == "";
    SplitTrimmedEmpty(sep);
  }

  lemma {:induction false} CleanJoinSplitsNonEmpty(parts: seq<string>, sep: char, text: string)
    requires |parts| > 0 && text == Join(parts, [sep])
    requires forall i :: 0 <= i < |parts| ==> CleanPiece(parts[i], sep)
    ensures SplitTrimmed(text, sep) == parts
  {
    SplitJoin(parts, sep);
    TrimEachClean(parts);
    SplitTrimmedThrough(text, sep, parts, parts);
  }

  /** The three stages of the list parsers, one at a time. */
  lemma {:induction false} SplitTrimmedThrough(text: string, sep: char, pieces: seq<string>, trimmed: seq<string>)
    requires Split(text, sep) == pieces && TrimEach(pieces) == trimmed && NonEmpty(trimmed) == trimmed
    ensures SplitTrimmed(text, sep) == trimmed
  {
  }

  /** Trimming each piece works piece by piece, so it distributes over concatenation. */
  lemma {:induction false} TrimEachConcat(a: seq<string>, b: seq<string>)
    ensures TrimEach(a + b) == TrimEach(a) + TrimEach(b)
  {
    if |a| > 0 {
      assert (a + b)[1..] == a[1..] + b;
      TrimEachConcat(a[1..], b);
    } else {
      assert a + b == b;
    }
  }

  /** Filtering one piece keeps it exactly when it is not empty. */
  lemma NonEmptySingle(x: string)
    ensures NonEmpty([x]) == if x == "" then [] else [x]
  {
    assert [x][1..] == [];
  }

  /** The filter decides piece by piece and keeps the order: it distributes over concatenation. */
  lemma {:induction false} NonEmptyConcat(a: seq<string>, b: seq<string>)
    ensures NonEmpty(a + b) == NonEmpty(a) + NonEmpty(b)
  {
    if |a| > 0 {
      assert (a + b)[0] == a[0];
      assert (a + b)[1..] == a[1..] + b;
      NonEmptyConcat(a[1..], b);
    } else {
      assert a + b == b;
    }
  }

  /** Text without the separator is one line: its trimmed form, or nothing when that is empty. */
  lemma {:induction false} SplitTrimmedLine(a: string, sep: char)
    requires sep !in a
    ensures SplitTrimmed(a, sep) == NonEmpty([Trim(a)])
  {
    SplitNoSeparator(a, sep);
    assert TrimEach([a]) == [Trim(a)];
  }

  /** The text on either side of a separator is parsed independently, and the results are concatenated. */
  lemma {:induction false} SplitTrimmedConcat(a: string, sep: char, b: string)
    ensures SplitTrimmed(a + [sep] + b, sep) == SplitTrimmed(a, sep) + SplitTrimmed(b, sep)
  {
    SplitAtSeparator(a, sep, b);
    TrimEachConcat(Split(a, sep), Split(b, sep));
    NonEmptyConcat(TrimEach(Split(a, sep)), TrimEach(Split(b, sep)));
  }

  /**
   * The first line of the text is dropped when it is blank and kept trimmed
   * otherwise, and the rest of the text is parsed the same way, in order.
   */
  lemma {:induction false} SplitTrimmedStep(a: string, sep: char, b: string)
    requires sep !in a
    ensures SplitTrimmed(a + [sep] + b, sep) == NonEmpty([Trim(a)]) + SplitTrimmed(b, sep)
    ensures SplitTrimmed(a + [sep] + b, sep) == (if Trim(a) == "" then [] else [Trim(a)]) + SplitTrimmed(b, sep)
  {
    SplitTrimmedConcat(a, sep, b);
    SplitTrimmedLine(a, sep);
    NonEmptySingle(Trim(a));
  }

  /** A separator typed at the end of the text adds nothing to what the list parsers send. */
  lemma {:induction false} TrailingSeparatorIgnored(text: string, sep: char)
    ensures SplitTrimmed(text + [sep], sep) == SplitTrimmed(text, sep)
    ensures ParseUrlList(text + "\n") == ParseUrlList(text)
    ensures ParseCommaList(text + ",") == ParseCommaList(text)
  {
    forall c: char ensures SplitTrimmed(text + [c], c) == SplitTrimmed(text, c) {
      SplitTrimmedConcat(text, c, "");
      SplitTrimmedEmpty(c);
      assert text + [c] + "" == text + [c];
    }
  }

  /**
   * The URL textarea is controlled by the parsed list, so a line break typed at
   * the end of clean URLs is gone from the text it shows next.
   */
  lemma {:induction false} TrailingNewlineLost(urls: seq<string>)
    requires forall i :: 0 <= i < |urls| ==> CleanPiece(urls[i], '\n')
    ensures UrlDisplay(ParseUrlList(Join(urls, "\n") + "\n")) == Success(Join(urls, "\n"))
  {
    TrailingSeparatorIgnored(Join(urls, "\n"), '\n');
    UrlListRoundTrip(urls);
  }

  /** A blank line between two URLs is dropped. */
  lemma {:induction false} UrlBlankLineExample()
    ensures ParseUrlList("a\n\nb") == Arr([UrlObject("a"), UrlObject("b")])
  {
    BlankLineLines();
    assert UrlObjects(["a", "b"]) == [UrlObject("a"), UrlObject("b")];
  }

  lemma {:induction false} BlankLineLines()
    ensures SplitTrimmed("a\n\nb", '\n') == ["a", "b"]
  {
    var rest := "" + ['\n'] + "b";
    assert "a\n\nb" == "a" + ['\n'] + rest;
    SplitTrimmedStep("a", '\n', rest);
    BlankThenLine(rest);
    TrimTrimmed("a");
  }

  lemma {:induction false} BlankThenLine(rest: string)
    requires rest == "" + ['\n'] + "b"
    ensures SplitTrimmed(rest, '\n') == ["b"]
  {
    SplitTrimmedStep("", '\n', "b");
    SplitTrimmedLine("b", '\n');
    TrimTrimmed("b");
    NonEmptySingle("b");
    assert Trim("") == "";
  }

  /**
   * Showing a URL list and parsing the text back gives the same list, when every
   * URL is non-empty, already trimmed and free of line breaks.
   */
  lemma {:induction false} UrlListRoundTrip(urls: seq<string>)
    requires forall i :: 0 <= i < |urls| ==> CleanPiece(urls[i], '\n')
    ensures UrlDisplay(Arr(UrlObjects(urls))) == Success(Join(urls, "\n"))
    ensures ParseUrlList(Join(urls, "\n")) == Arr(UrlObjects(urls))
  {
    var objs := UrlObjects(urls);
    var cells := UrlCells(objs);
    assert cells.Success?;
    assert cells.value == StrValues(urls) by {
      forall i | 0 <= i < |urls| ensures cells.value[i] == Str(urls[i]) {
        UrlCellAt(objs, i);
      }
    }
    JoinStrValues(urls, "\n");
    CleanJoinSplits(urls, '\n');
  }

  lemma {:induction false} UrlCellAt(items: seq<Value>, i: nat)
    requires i < |items| && UrlCells(items).Success?
    ensures UrlCells(items).value[i] == Or(GetProp(items[i], "url"), Str(""))
  {
    if i > 0 {
      UrlCellAt(items[1..], i - 1);
    }
  }

  /** Parsing the URL textarea is idempotent: showing the parsed list and parsing again changes nothing. */
  lemma {:induction false} UrlParseIdempotent(text: string)
    ensures var lines := SplitTrimmed(text, '\n');
            ParseUrlList(text) == Arr(UrlObjects(lines))
            && UrlDisplay(ParseUrlList(text)) == Success(Join(lines, "\n"))
            && ParseUrlList(Join(lines, "\n")) == ParseUrlList(text)
  {
    UrlListRoundTrip(SplitTrimmed(text, '\n'));
  }

  /** `xs.join(", ")` is the join with `","` of the items with a blank put before every item after the first. */
  lemma {:induction false} JoinCommaSpace(xs: seq<string>)
    requires |xs| > 0
    ensures Join(xs, ", ") == Join([xs[0]] + Blanked(xs[1..]), ",")
  {
    if |xs| > 1 {
      BlankedJoin(xs[1..]);
      assert ([xs[0]] + Blanked(xs[1..]))[1..] == Blanked(xs[1..]);
    }
  }

  /** Each item with a leading blank. */
  function Blanked(xs: seq<string>): (r: seq<string>)
    ensures |r| == |xs|
    ensures forall i :: 0 <= i < |xs| ==> r[i] == " " + xs[i]
  {
    if |xs| == 0 then [] else [" " + xs[0]] + Blanked(xs[1..])
  }

  lemma {:induction false} BlankedJoin(xs: seq<string>)
    requires |xs| > 0
    ensures Join(Blanked(xs), ",") == " " + Join(xs, ", ")
  {
    if |xs| > 1 {
      BlankedJoin(xs[1..]);
      assert Blanked(xs)[1..] == Blanked(xs[1..]);
      assert Join(Blanked(xs), ",") == " " + xs[0] + "," + (" " + Join(xs[1..], ", "));
    }
  }

  /**
   * Showing a list of strings and parsing the text back gives the same list, when
   * every item is non-empty, already trimmed and free of commas.
   */
  lemma {:induction false} CommaListRoundTrip(items: seq<string>)
    requires forall i :: 0 <= i < |items| ==> CleanPiece(items[i], ',')
    ensures ListDisplay(Arr(StrValues(items))) == Str(Join(items, ", "))
    ensures ParseCommaList(Join(items, ", ")) == Arr(StrValues(items))
  {
    JoinStrValues(items, ", ");
    if |items| == 0 {
      assert Join(items, ", ") == "";
      SplitTrimmedEmpty(',');
    } else {
      CommaSpaceSplits(items, Join(items, ", "));
    }
  }

  /** Text joined with `", "` splits on `","` into the items with a blank in front, which trimming removes. */
  lemma {:induction false} CommaSpaceSplits(items: seq<string>, text: string)
    requires |items| > 0 && text == Join(items, ", ")
    requires forall i :: 0 <= i < |items| ==> CleanPiece(items[i], ',')
    ensures SplitTrimmed(text, ',') == items
  {
    var padded := [items[0]] + Blanked(items[1..]);
    PaddedNoComma(items, padded);
    PaddedSplits(items, padded, text);
    PaddedTrims(items, padded);
    TrimEachClean(items);
    SplitTrimmedThrough(text, ',', padded, items);
  }

  lemma {:induction false} PaddedNoComma(items: seq<string>, padded: seq<string>)
    requires |items| > 0 && padded == [items[0]] + Blanked(items[1..])
    requires forall i :: 0 <= i < |items| ==> CleanPiece(items[i], ',')
    ensures forall i :: 0 <= i < |padded| ==> ',' !in padded[i]
  {
    forall i | 0 <= i < |padded| ensures ',' !in padded[i] {
      if i > 0 {
        assert padded[i] == " " + items[i];
      }
    }
  }

  lemma {:induction false} PaddedSplits(items: seq<string>, padded: seq<string>, text: string)
    requires |items| > 0 && padded == [items[0]] + Blanked(items[1..]) && text == Join(items, ", ")
    requires forall i :: 0 <= i < |padded| ==> ',' !in padded[i]
    ensures Split(text, ',') == padded
  {
    JoinCommaSpace(items);
    SplitJoin(padded, ',');
  }

  lemma {:induction false} PaddedTrims(items: seq<string>, padded: seq<string>)
    requires |items| > 0 && padded == [items[0]] + Blanked(items[1..])
    requires forall i :: 0 <= i < |items| ==> CleanPiece(items[i], ',')
    ensures TrimEach(padded) == items
  {
    forall i | 0 <= i < |items| ensures TrimEach(padded)[i] == items[i] {
      TrimEachAt(padded, i);
      if i == 0 {
        TrimTrimmed(items[0]);
      } else {
        assert padded[i] == " " + items[i];
        TrimPadded(" ", items[i]);
      }
    }
  }

  lemma {:induction false} TrimEachClean(items: seq<string>)
    requires forall i :: 0 <= i < |items| ==> items[i] != "" && IsTrimmed(items[i])
    ensures TrimEach(items) == items
    ensures NonEmpty(items) == items
  {
    CleanPiecesKept(items);
    assert TrimEach(items) == items by {
      forall i | 0 <= i < |items| ensures TrimEach(items)[i] == items[i] {
        TrimEachAt(items, i);
        TrimTrimmed(items[i]);
      }
    }
  }

  /** The example of the comma-separated widget: `"a, b ,c"` is sent as `["a", "b", "c"]`. */
  lemma {:induction false} CommaListExample()
    ensures ParseCommaList("a, b ,c") == Arr([Str("a"), Str("b"), Str("c")])
  {
    var pieces := ["a", " b ", "c"];
    ExampleSplit();
    ExampleTrims(pieces);
    TrimEachClean(["a", "b", "c"]);
    SplitTrimmedThrough("a, b ,c", ',', pieces, ["a", "b", "c"]);
    ExampleValues();
  }

  lemma {:induction false} ExampleValues()
    ensures StrValues(["a", "b", "c"]) == [Str("a"), Str("b"), Str("c")]
  {
    var vs := StrValues(["a", "b", "c"]);
    assert vs[0] == Str("a") && vs[1] == Str("b") && vs[2] == Str("c");
  }

  lemma {:induction false} ExampleSplit()
    ensures Split("a, b ,c", ',') == ["a", " b ", "c"]
  {
    SplitNoSeparator("c", ',');
    assert " b ,c" == " b " + [','] + "c";
    SplitAfterPiece(" b ", ',', "c");
    assert "a, b ,c" == "a" + [','] + " b ,c";
    SplitAfterPiece("a", ',', " b ,c");
  }

  lemma {:induction false} ExampleTrims(pieces: seq<string>)
    requires pieces == ["a", " b ", "c"]
    ensures TrimEach(pieces) == ["a", "b", "c"]
  {
    TrimEachAt(pieces, 0);
    TrimEachAt(pieces, 1);
    TrimEachAt(pieces, 2);
    TrimTrimmed("a");
    TrimTrimmed("c");
    ExampleTrimB();
  }

  lemma {:induction false} ExampleTrimB()
    ensures Trim(" b ") == "b"
  {
    assert " b "[1..] == "b ";
    assert TrimStart("b ") == "b ";
    assert TrimStart(" b ") == "b ";
    assert "b "[..1] == "b";
    assert TrimEnd("b") == "b";
    assert TrimEnd("b ") == "b";
  }

  /** The number input's examples: `"42"` is sent as 42 and `"abc"` as 0. */
  lemma {:induction false} CoerceIntegerExamples()
    ensures CoerceInteger("42") == Num(42)
    ensures CoerceInteger("abc") == Num(0)
  {
    assert DecimalString(42) == "42";
    ParseIntString(42);
    NonNumericIsZero("abc");
  }

  /** The number input reads back every integer it shows. */
  lemma {:induction false} CoerceIntegerString(n: int)
    ensures CoerceInteger(IntString(n)) == Num(n)
  {
    ParseIntString(n);
  }

  /** The state `FieldBox` keeps: the current value, and the values it has handed to `onChange`, in order. */
  class FieldState {
    const field: Value
    var value: Value
    var sent: seq<Value>

    constructor (field: Value)
      ensures this.field == field && value == InitialValue(field) && sent == []
    {
      this.field := field;
      value := InitialValue(field);
      sent := [];
    }

    /** `handleChange(v)`: the local value becomes `v` and exactly `v` goes to `onChange`. */
    method HandleChange(v: Value)
      modifies this
      ensures value == v && sent == old(sent) + [v]
    {
      value := v;
      sent := sent + [v];
    }

    /** A change event of the URL textarea. */
    method ChangeUrlText(text: string)
      requires WidgetOf(field) == UrlListArea
      modifies this
      ensures value == ParseUrlList(text) && sent == old(sent) + [value]
    {
      HandleChange(ParseUrlList(text));
    }

    /** A change event of the comma-separated textarea. */
    method ChangeListText(text: string)
      requires WidgetOf(field) == ListArea
      modifies this
      ensures value == ParseCommaList(text) && sent == old(sent) + [value]
    {
      HandleChange(ParseCommaList(text));
    }

    /** A change event of the number input. */
    method ChangeNumberText(text: string)
      requires WidgetOf(field) == NumberInput
      modifies this
      ensures value == CoerceInteger(text) && sent == old(sent) + [value]
    {
      HandleChange(CoerceInteger(text));
    }

    /** A change event of the checkbox. */
    method ChangeChecked(checked: bool)
      requires WidgetOf(field) == Checkbox
      modifies this
      ensures value == Bool(checked) && sent == old(sent) + [value]
    {
      HandleChange(Bool(checked));
    }

    /** A change event of the select or a text input: the text is sent as it is, empty included. */
    method ChangeText(text: string)
      requires WidgetOf(field) in {EnumSelect, TextInput}
      modifies this
      ensures value == Str(text) && sent == old(sent) + [value]
    {
      HandleChange(Str(text));
    }
  }
}
