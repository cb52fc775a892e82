/** What a whole iteration of the reader can return, and a printer whose
    lines the reader reads back: node, link and one-line element records
    written out as their input lines, and title lines. */
module ReaderProperties {
  import opened Values
  import opened Text
  import opened Reader

  /** Every record of a successful iteration has the reader's shape. */
  lemma {:induction false} RecordsFromReader(c: Conv, lines: seq<string>, pos: nat, title: Option<string>)
    requires pos <= |lines| && ReadAll(c, lines, pos, title).Ok?
    ensures forall r <- ReadAll(c, lines, pos, title).value :: FromReader(r)
    decreases |lines| - pos
  {
    var o := NextSpec(c, lines, pos, title);
    if o.step.Item? {
      RecordsFromReader(c, lines, o.pos, o.title);
    }
  }

  /** A title is accepted only while no non-empty title is stored: an
      iteration that starts with a non-empty title returns no title record,
      and of the title records of one iteration all but the last are empty. */
  lemma {:induction false} TitlesOfIteration(c: Conv, lines: seq<string>, pos: nat, title: Option<string>)
    requires pos <= |lines| && ReadAll(c, lines, pos, title).Ok?
    ensures var rs := ReadAll(c, lines, pos, title).value;
            && (Truthy(title) ==> forall r <- rs :: !r.TitleRec?)
            && (forall i, j | 0 <= i < j < |rs| && rs[i].TitleRec? && rs[j].TitleRec? :: rs[i].title == "")
    decreases |lines| - pos
  {
    var o := NextSpec(c, lines, pos, title);
    if o.step.Item? {
      TitlesOfIteration(c, lines, o.pos, o.title);
      var rs := ReadAll(c, lines, pos, title).value;
      var rest := ReadAll(c, lines, o.pos, o.title).value;
      assert rs == [o.step.record] + rest;
      forall i, j | 0 <= i < j < |rs| && rs[i].TitleRec? && rs[j].TitleRec?
        ensures rs[i].title == ""
      {
        assert rs[j] == rest[j - 1];
        if i > 0 {
          assert rs[i] == rest[i - 1];
        }
      }
    }
  }

  /** The text written after the keyword of a title line is read back when
      it holds no "title" and does not start with whitespace. */
  lemma TitleTextOfLine(t: string)
    requires !Occurs(t, "title") && (t == [] || !IsSpace(t[0]))
    ensures TitleText("title " + t) == t
  {
    var line := "title " + t;
    var rest := " " + t;
    assert line == "title" + rest;
    NoTitleAfterSpace(t);
    calc {
      TitleText(line);
      Lstrip(ReplaceAll(Lstrip(line), "title", ""));
      { LstripNonSpace(line); }
      Lstrip(ReplaceAll("title" + rest, "title", ""));
      { ReplaceAllLeading("title", rest, ""); assert "" + ReplaceAll(rest, "title", "") == ReplaceAll(rest, "title", ""); }
      Lstrip(ReplaceAll(rest, "title", ""));
      { ReplaceAllAbsent(rest, "title", ""); }
      Lstrip(rest);
      { assert rest[1..] == t; }
      Lstrip(t);
      { LstripNonSpace(t); }
      t;
    }
  }

  lemma NoTitleAfterSpace(t: string)
    requires !Occurs(t, "title")
    ensures !Occurs(" " + t, "title")
  {
    var rest := " " + t;
    forall i: nat | OccursAt(rest, "title", i)
      ensures false
    {
      assert rest[i..i + 5][0] == rest[i] == 't';
      if i > 0 {
        assert rest[i..i + 5] == t[i - 1..i - 1 + 5];
        assert OccursAt(t, "title", i - 1);
      }
    }
  }

  lemma LstripNonSpace(s: string)
    requires s == [] || !IsSpace(s[0])
    ensures Lstrip(s) == s
  {
  }

  /** A title line is returned as a title record and stored when no
      non-empty title is stored, and raises BadNetworkInput otherwise. */
  lemma TitleLineStep(c: Conv, lines: seq<string>, k: nat, title: Option<string>, t: string)
    requires k < |lines| && lines[k] == "title " + t
    requires !Occurs(t, "title") && (t == [] || !IsSpace(t[0]))
    ensures !IsBlank(lines[k])
    ensures !Truthy(title) ==> NextAt(c, lines, k, title) == NextOut(Item(TitleRec(t)), k + 1, Some(t))
    ensures Truthy(title) ==> NextAt(c, lines, k, title) == NextOut(Fail(BadNetworkInput(k + 1, ExtraTitle)), k + 1, title)
  {
    var line := lines[k];
    assert line[0] == 't' && !IsSpace(line[0]);
    assert !StartsWith(line, "*");
    assert Lstrip(line) == line;
    assert StartsWith(line, "title") by {
      assert line[..5] == "title";
    }
    NextAtCases(c, lines, k, title);
    assert NextAt(c, lines, k, title) == TitleAt(line, k + 1, title);
    TitleTextOfLine(t);
  }

  /** The keys, in input order, of the element kinds whose record is on a
      single line. */
  function LineKeys(t: ElementType): Option<seq<string>> {
    match t
    case PLR => Some(PlrKeys)
    case CFR => Some(CfrKeys)
    case CPF => Some(CpfKeys)
    case QFR => Some(QfrKeys)
    case CKV => Some(CkvKeys)
    case _ => None
  }

  /** A number the reader returns unconverted, as one token. */
  predicate RawWord(n: Number) {
    n.Raw? && IsWord(n.token)
  }

  /** The records that one input line describes and that the reader
      returns unconverted (handle_float is noop). */
  predicate Printable(r: Record) {
    match r
    case TitleRec(_) => false
    case NodeRec(name, t, ht, temp, pres) =>
      && IsWord(name) && t.Some? && t.value in {"v", "c", "a"} && RawWord(ht) && RawWord(temp)
      && (pres.None? <==> t.value == "v") && (pres.Some? ==> RawWord(pres.value))
    case ElementRec(k, name, fields, pts) =>
      && IsWord(name) && k.EnumKey? && LineKeys(k.member).Some? && pts.None?
      && fields.Keys == KeysOf(LineKeys(k.member).value)
      && forall key <- fields.Keys :: RawWord(fields[key])
    case LinkRec(name, n1, ht1, n2, ht2, element, wind) =>
      && IsWord(name) && IsWord(n1) && RawWord(ht1) && IsWord(n2) && RawWord(ht2) && IsWord(element)
      && (wind.Some? ==> IsWord(wind.value.wind) && wind.value.wind != "null" && RawWord(wind.value.wpmod))
  }

  /** The fields of the input line of a printable record. */
  function Tokens(r: Record): (ws: seq<string>)
    requires Printable(r)
    ensures |ws| >= 1 && forall w <- ws :: IsWord(w)
  {
    match r
    case NodeRec(name, t, ht, temp, pres) =>
      ["node", name, t.value, ht.token, temp.token] + (if pres.Some? then [pres.value.token] else [])
    case ElementRec(k, name, fields, _) =>
      var keys := LineKeys(k.member).value;
      ["element", name, KindName(k.member)] + seq(|keys|, i requires 0 <= i < |keys| => fields[keys[i]].token)
    case LinkRec(name, n1, ht1, n2, ht2, element, wind) =>
      ["link", name, n1, ht1.token, n2, ht2.token, element]
        + (if wind.None? then ["null"] else [wind.value.wind, wind.value.wpmod.token])
  }

  /** The input line of a printable record, its fields separated by spaces. */
  function PrintLine(r: Record): string
    requires Printable(r)
  {
    JoinWords(Tokens(r))
  }

  /** The input file of a sequence of printable records, one line each. */
  function Print(rs: seq<Record>): (lines: seq<string>)
    requires forall r <- rs :: Printable(r)
    ensures |lines| == |rs|
    ensures forall i | 0 <= i < |rs| :: lines[i] == PrintLine(rs[i])
  {
    if rs == [] then []
    else
      assert forall r <- rs[1..] :: r in rs;
      var rest := Print(rs[1..]);
      var lines := [PrintLine(rs[0])] + rest;
      assert forall i | 0 <= i < |rs| :: lines[i] == PrintLine(rs[i]) by {
        forall i | 0 <= i < |rs| ensures lines[i] == PrintLine(rs[i]) {
          if i > 0 {
            assert lines[i] == rest[i - 1] && rs[1..][i - 1] == rs[i];
          }
        }
      }
      lines
  }

  lemma KindNameInjective(t: ElementType)
    ensures ElementKindOf(KindName(t)) == Some(t)
  {
  }

  lemma LineKeysDistinct(t: ElementType)
    requires LineKeys(t).Some?
    ensures Distinct(LineKeys(t).value)
  {
  }

  /** With handle_float noop and distinct keys, every token is stored
      unconverted under its key. */
  lemma ConvertRaw(c: Conv, keys: seq<string>, tokens: seq<string>)
    requires !c.floats && |keys| <= |tokens| && Distinct(keys)
    ensures Convert(c, keys, tokens).Ok?
    ensures forall i | 0 <= i < |keys| :: Convert(c, keys, tokens).value[keys[i]] == Raw(tokens[i])
  {
    ConvertFails(c, keys, tokens);
    ConvertValues(c, keys, tokens);
  }

  lemma ParseNodeTokens(c: Conv, r: Record, line: nat)
    requires !c.floats && Printable(r) && r.NodeRec?
    ensures ParseNode(c, Tokens(r), line) == Ok(r)
  {
  }

  lemma ParseLinkTokens(c: Conv, r: Record, line: nat)
    requires !c.floats && Printable(r) && r.LinkRec?
    ensures ParseLink(c, Tokens(r), line) == Ok(r)
  {
  }

  /** With handle_float noop, distinct keys convert into the map that holds
      each token, unconverted, under its key. */
  lemma ConvertToRawMap(c: Conv, keys: seq<string>, vals: seq<string>, fields: map<string, Number>)
    requires !c.floats && Distinct(keys) && |vals| == |keys| && fields.Keys == KeysOf(keys)
    requires forall i | 0 <= i < |keys| :: fields[keys[i]] == Raw(vals[i])
    ensures Convert(c, keys, vals) == Ok(fields)
  {
    ConvertRaw(c, keys, vals);
    var m := Convert(c, keys, vals).value;
    assert m.Keys == fields.Keys;
    forall key | key in m.Keys
      ensures m[key] == fields[key]
    {
      assert key in KeysOf(keys);
      var i :| 0 <= i < |keys| && keys[i] == key;
      assert m[keys[i]] == Raw(vals[i]) == fields[keys[i]];
    }
    assert m == fields;
  }

  /** The fields of a printed one-line element after its kind are the
      element's values in key order. */
  lemma ElementValueTokens(r: Record)
    requires Printable(r) && r.ElementRec?
    ensures var keys := LineKeys(r.etype.member).value;
            && |Tokens(r)[3..]| == |keys|
            && forall i | 0 <= i < |keys| :: r.fields[keys[i]] == Raw(Tokens(r)[3..][i])
  {
    var keys := LineKeys(r.etype.member).value;
    forall i | 0 <= i < |keys|
      ensures r.fields[keys[i]] == Raw(Tokens(r)[3..][i])
    {
      assert keys[i] in r.fields.Keys;
      assert RawWord(r.fields[keys[i]]);
    }
  }

  /** The fields after the kind of a printed one-line element convert
      back into the element's fields. */
  lemma ConvertElementTokens(c: Conv, r: Record)
    requires !c.floats && Printable(r) && r.ElementRec?
    ensures Convert(c, LineKeys(r.etype.member).value, Tokens(r)[3..]) == Ok(r.fields)
  {
    LineKeysDistinct(r.etype.member);
    ElementValueTokens(r);
    ConvertToRawMap(c, LineKeys(r.etype.member).value, Tokens(r)[3..], r.fields);
  }

  /** The kind keyword of a printed one-line element selects its kind. */
  lemma ReadElementKind(c: Conv, lines: seq<string>, pos: nat, data: seq<string>, t: ElementType)
    requires pos <= |lines| && |data| >= 3 && data[2] == KindName(t) && LineKeys(t).Some?
    ensures ReadElement(c, lines, pos, data) == (SingleLineElement(c, data, pos, t, LineKeys(t).value), pos)
  {
    KindNameInjective(t);
    match t
    case PLR =>
    case CFR =>
    case CPF =>
    case QFR =>
    case CKV =>
  }

  lemma ReadElementTokens(c: Conv, lines: seq<string>, pos: nat, r: Record)
    requires !c.floats && Printable(r) && r.ElementRec? && pos <= |lines|
    ensures ReadElement(c, lines, pos, Tokens(r)) == (Ok(r), pos)
  {
    var t := r.etype.member;
    ReadElementKind(c, lines, pos, Tokens(r), t);
    ConvertElementTokens(c, r);
  }

  /** A line that starts with the first letter of a keyword is not blank
      and is not a comment or title line. */
  lemma KeywordLineFacts(line: string)
    requires |line| > 0 && line[0] in {'n', 'e', 'l'}
    ensures !IsBlank(line) && !StartsWith(line, "*") && !StartsWith(Lstrip(line), "title")
  {
    var c := line[0];
    assert !IsSpace(c);
    LstripNonSpace(line);
    assert line[..1][0] == c && c != '*';
    if |line| >= 5 {
      assert line[..5][0] == c && c != 't';
    }
  }

  /** A printed line starts with its keyword and splits into the record's
      fields. */
  lemma PrintedLineFacts(r: Record)
    requires Printable(r)
    ensures |PrintLine(r)| > 0 && PrintLine(r)[0] in {'n', 'e', 'l'}
    ensures Split(PrintLine(r)) == Tokens(r)
  {
    var ws := Tokens(r);
    SplitJoinWords(ws);
    assert PrintLine(r)[0] == ws[0][0];
  }

  /** __next__ on a node, element or link line returns what RecordAt
      makes of its fields. */
  lemma NextAtRecordLine(c: Conv, lines: seq<string>, k: nat, title: Option<string>, kw: Keyword)
    requires k < |lines| && !IsBlank(lines[k]) && !StartsWith(lines[k], "*") && !StartsWith(Lstrip(lines[k]), "title")
    requires KeywordOf(Split(lines[k])[0]) == Some(kw)
    ensures var o := RecordAt(c, lines, k + 1, Split(lines[k]), kw);
            NextAt(c, lines, k, title) == NextOut(ToStep(o.0), o.1, title)
  {
  }

  /** The keyword of a printable record's line. */
  function KeywordFor(r: Record): Keyword {
    if r.NodeRec? then NodeLine else if r.LinkRec? then LinkLine else ElementLine
  }

  /** The fields of a printable record are read back as that record. */
  lemma RecordAtPrinted(c: Conv, lines: seq<string>, pos: nat, r: Record)
    requires !c.floats && Printable(r) && 0 < pos <= |lines|
    ensures KeywordOf(Tokens(r)[0]) == Some(KeywordFor(r))
    ensures RecordAt(c, lines, pos, Tokens(r), KeywordFor(r)) == (Ok(r), pos)
  {
    match r
    case NodeRec(_, _, _, _, _) =>
      ParseNodeTokens(c, r, pos);
    case LinkRec(_, _, _, _, _, _, _) =>
      ParseLinkTokens(c, r, pos);
    case ElementRec(_, _, _, _) =>
      ReadElementTokens(c, lines, pos, r);
  }

  /** The line of a printable record is read back as that record. */
  lemma NextAtPrinted(c: Conv, lines: seq<string>, k: nat, title: Option<string>, r: Record)
    requires !c.floats && Printable(r) && k < |lines| && lines[k] == PrintLine(r)
    ensures !IsBlank(lines[k])
    ensures NextAt(c, lines, k, title) == NextOut(Item(r), k + 1, title)
  {
    PrintedLineFacts(r);
    KeywordLineFacts(lines[k]);
    RecordAtPrinted(c, lines, k + 1, r);
    NextAtRecordLine(c, lines, k, title, KeywordFor(r));
  }

  /** __next__ at the line of a printable record returns that record. */
  lemma NextSpecPrinted(c: Conv, lines: seq<string>, pos: nat, title: Option<string>, r: Record)
    requires !c.floats && Printable(r) && pos < |lines| && lines[pos] == PrintLine(r)
    ensures NextSpec(c, lines, pos, title) == NextOut(Item(r), pos + 1, title)
  {
    NextAtPrinted(c, lines, pos, title, r);
    NextSpecStep(c, lines, pos, title);
    assert NextNonBlank(lines, pos) == Some(pos);
  }

  /** The first line at pos, and the lines after it. */
  lemma SliceFront(lines: seq<string>, pos: nat)
    requires pos < |lines|
    ensures lines[pos] == lines[pos..][0] && lines[pos + 1..] == lines[pos..][1..]
  {
  }

  /** A printed line followed by lines that read back as rest reads back
      as its record followed by rest. */
  lemma ReadPrintedStep(c: Conv, lines: seq<string>, pos: nat, title: Option<string>, r: Record, rest: seq<Record>)
    requires !c.floats && Printable(r) && pos < |lines| && lines[pos] == PrintLine(r)
    requires ReadAll(c, lines, pos + 1, title) == Ok(rest)
    ensures ReadAll(c, lines, pos, title) == Ok([r] + rest)
  {
    ReadAllStep(c, lines, pos, title);
    NextSpecPrinted(c, lines, pos, title, r);
  }

  /** Reading the printed lines gives back the records: from any position
      where they follow, the rest of the iteration returns exactly them. */
  lemma {:induction false} ReadPrinted(c: Conv, lines: seq<string>, pos: nat, title: Option<string>, rs: seq<Record>)
    requires !c.floats && pos <= |lines| && forall r <- rs :: Printable(r)
    requires lines[pos..] == Print(rs)
    ensures ReadAll(c, lines, pos, title) == Ok(rs)
    decreases |rs|
  {
    if rs == [] {
      ReadAllStep(c, lines, pos, title);
      NextSpecStep(c, lines, pos, title);
    } else {
      SliceFront(lines, pos);
      ReadPrinted(c, lines, pos + 1, title, rs[1..]);
      ReadPrintedStep(c, lines, pos, title, rs[0], rs[1..]);
      assert [rs[0]] + rs[1..] == rs;
    }
  }
}
