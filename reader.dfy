/** The network-file reader of src/airnet/reader.py: a line-oriented parser
    over a stream of lines that turns title, node, element and link lines
    into tagged records. The stream is a sequence of lines together with the
    number of lines already consumed; the functions below say what one call
    of __next__ (NextSpec) and one full iteration (ReadAll) produce, and the
    class Reader does it step by step as the Python object does. */
module Reader {
  import opened Values
  import opened Text

  /** One data point of a fan curve. reader.py builds a dict with the keys
      a1, a2, a2, a4, mf: the repeated a2 keeps the later value (the fourth
      token), and mf repeats the fifth token. */
  datatype FanPoint = FanPoint(a1: Number, a2: Number, a4: Number, mf: Number)

  /** The wind and wpmod entries of a link record. */
  datatype Wind = Wind(wind: string, wpmod: Number)

  /** The records the reader returns, one constructor per InputType.
      An ElementRec's fields are the numeric entries of its dict, and pts is
      the list of data points, present for fans only. A node record's type
      is optional so that the model can treat records without one. */
  datatype Record =
    | TitleRec(title: string)
    | NodeRec(name: string, ntype: Option<string>, ht: Number, temp: Number, pres: Option<Number>)
    | ElementRec(etype: Key, name: string, fields: map<string, Number>, pts: Option<seq<FanPoint>>)
    | LinkRec(name: string, node1: string, ht1: Number, node2: string, ht2: Number,
              element: string, wind: Option<Wind>)

  /** What a call of __next__ does: return a record, raise StopIteration, or
      raise another exception. */
  datatype Step = Item(record: Record) | Stop | Fail(error: Exception)

  /** The reader's number conversions. handle_float is float() when floats
      is set and noop otherwise; int() is used for a fan's point count.
      Python's parsing of a token into a number is not modelled: parseFloat
      and parseInt give the parsed value, or None where Python raises
      ValueError. */
  datatype Conv = Conv(floats: bool, parseFloat: string -> Option<real>, parseInt: string -> Option<int>)

  /** handle_float: noop keeps the token, float() parses it or raises
      ValueError. */
  function HandleFloat(c: Conv, token: string): (r: Result<Number>)
    ensures !c.floats ==> r == Ok(Raw(token))
    ensures c.floats ==> (r.Ok? <==> c.parseFloat(token).Some?)
    ensures c.floats && r.Ok? ==> r == Ok(Float(c.parseFloat(token).value))
    ensures r.Err? ==> r.error == ValueError
  {
    if !c.floats then Ok(Raw(token))
    else match c.parseFloat(token)
      case Some(x) => Ok(Float(x))
      case None => Err(ValueError)
  }

  /** int(): the parsed value, or ValueError. */
  function HandleInt(c: Conv, token: string): (r: Result<int>)
    ensures r.Ok? <==> c.parseInt(token).Some?
    ensures r.Ok? ==> r.value == c.parseInt(token).value
    ensures r.Err? ==> r.error == ValueError
  {
    match c.parseInt(token)
    case Some(n) => Ok(n)
    case None => Err(ValueError)
  }

  function ToStep(r: Result<Record>): Step {
    match r
    case Ok(rec) => Item(rec)
    case Err(e) => Fail(e)
  }

  function KeysOf(keys: seq<string>): set<string> {
    set k | k in keys
  }

  predicate Distinct<T(==)>(s: seq<T>) {
    forall i, j | 0 <= i < j < |s| :: s[i] != s[j]
  }

  /** Converts tokens[i] with handle_float and stores it under keys[i], left
      to right, as a Python dict display does; the first token that does not
      convert raises ValueError. */
  function Convert(c: Conv, keys: seq<string>, tokens: seq<string>): (r: Result<map<string, Number>>)
    requires |keys| <= |tokens|
    ensures r.Ok? ==> r.value.Keys == KeysOf(keys)
    ensures r.Err? ==> r.error == ValueError
    decreases |keys|
  {
    if keys == [] then Ok(map[])
    else match HandleFloat(c, tokens[0])
      case Err(e) => Err(e)
      case Ok(v) =>
        match Convert(c, keys[1..], tokens[1..])
        case Err(e) => Err(e)
        case Ok(rest) =>
          assert KeysOf(keys) == {keys[0]} + KeysOf(keys[1..]) by {
            assert keys == [keys[0]] + keys[1..];
          }
          Ok(map[keys[0] := v] + rest)
  }

  /** With distinct keys, each key holds the conversion of its own token. */
  lemma {:induction false} ConvertValues(c: Conv, keys: seq<string>, tokens: seq<string>)
    requires |keys| <= |tokens| && Distinct(keys) && Convert(c, keys, tokens).Ok?
    ensures forall i | 0 <= i < |keys| :: HandleFloat(c, tokens[i]) == Ok(Convert(c, keys, tokens).value[keys[i]])
    decreases |keys|
  {
    if keys != [] {
      var m := Convert(c, keys, tokens).value;
      var rest := Convert(c, keys[1..], tokens[1..]);
      assert Distinct(keys[1..]) by {
        forall i, j | 0 <= i < j < |keys[1..]| ensures keys[1..][i] != keys[1..][j] {
          assert keys[1..][i] == keys[i + 1] && keys[1..][j] == keys[j + 1];
        }
      }
      ConvertValues(c, keys[1..], tokens[1..]);
      forall i | 0 <= i < |keys|
        ensures HandleFloat(c, tokens[i]) == Ok(m[keys[i]])
      {
        if i > 0 {
          assert keys[1..][i - 1] == keys[i] && tokens[1..][i - 1] == tokens[i];
          assert keys[i] != keys[0];
          assert m[keys[i]] == rest.value[keys[i]];
        }
      }
    }
  }

  /** The conversion fails exactly when one of the tokens does not convert. */
  lemma {:induction false} ConvertFails(c: Conv, keys: seq<string>, tokens: seq<string>)
    requires |keys| <= |tokens|
    ensures Convert(c, keys, tokens).Err? <==> exists i | 0 <= i < |keys| :: HandleFloat(c, tokens[i]).Err?
    decreases |keys|
  {
    if keys != [] {
      ConvertFails(c, keys[1..], tokens[1..]);
      assert forall i | 1 <= i < |keys| :: tokens[1..][i - 1] == tokens[i];
      if HandleFloat(c, tokens[0]).Ok? && Convert(c, keys[1..], tokens[1..]).Err? {
        var i :| 0 <= i < |keys[1..]| && HandleFloat(c, tokens[1..][i]).Err?;
        assert HandleFloat(c, tokens[i + 1]).Err?;
      }
    }
  }

  const PlrKeys: seq<string> := ["init", "lam", "turb", "expt"]
  const DwcKeys: seq<string> := ["len", "dh", "area", "rgh"]
  const DwcMoreKeys: seq<string> := ["tdlc", "lflc", "ldlc", "init"]
  const DorMoreKeys: seq<string> := ["dtmin", "ht", "wd", "cd"]
  const FanMoreKeys: seq<string> := ["rdens", "fdf", "sop", "ltt"]
  const CfrKeys: seq<string> := ["flow"]
  const CpfKeys: seq<string> := ["upo", "prmin", "ftyp"]
  const QfrKeys: seq<string> := ["a", "b"]
  const CkvKeys: seq<string> := ["dp0", "coeff"]

  /** The keyword that names each element kind in an input file. */
  function KindName(t: ElementType): string {
    match t
    case PLR => "plr" case DWC => "dwc" case DOR => "dor" case CFR => "cfr"
    case FAN => "fan" case CPF => "cpf" case QFR => "qfr" case CKV => "ckv"
  }

  /** The numeric keys of the record the reader builds for each element kind. */
  function RecordKeys(t: ElementType): set<string> {
    match t
    case PLR => KeysOf(PlrKeys)
    case DWC => KeysOf(DwcKeys) + KeysOf(DwcMoreKeys)
    case DOR => KeysOf(PlrKeys) + KeysOf(DorMoreKeys)
    case CFR => KeysOf(CfrKeys)
    case FAN => KeysOf(PlrKeys) + KeysOf(FanMoreKeys) + {"mfl"}
    case CPF => KeysOf(CpfKeys)
    case QFR => KeysOf(QfrKeys)
    case CKV => KeysOf(CkvKeys)
  }

  /** The shape of every record the reader can return: node types are v, c
      or a and only v nodes lack a pressure; element records are tagged with
      an ElementType member, carry exactly that kind's keys, and only fans
      carry data points. */
  predicate FromReader(r: Record) {
    match r
    case NodeRec(_, t, _, _, p) => t.Some? && t.value in {"v", "c", "a"} && (p.None? <==> t.value == "v")
    case ElementRec(k, _, f, pts) => k.EnumKey? && f.Keys == RecordKeys(k.member) && (pts.Some? <==> k.member == FAN)
    case _ => true
  }

  /** `if self.title:` — a stored title counts only when it is non-empty. */
  predicate Truthy(title: Option<string>) {
    title.Some? && title.value != ""
  }

  /** The text of a title line: the line left-stripped, with every
      occurrence of "title" removed, left-stripped again. */
  function TitleText(line: string): string {
    Lstrip(ReplaceAll(Lstrip(line), "title", ""))
  }

  /** The exceptions the reader raises on malformed input: BadNetworkInput
      for the checks it makes itself, IndexError for a line too short to
      have a type field, ValueError for a number float() or int() refuses. */
  predicate ReaderError(e: Exception) {
    e.BadNetworkInput? || e == IndexError || e == ValueError
  }

  /** The number of fields a node line of type t needs (types v, c, a). */
  function NodeFieldCount(t: string): nat {
    if t == "v" then 5 else 6
  }

  /** A node line, already split into tokens (data[0] is "node"): the type
      field is checked first, then the number of fields for that type, and
      then the fields are converted in order. */
  function ParseNode(c: Conv, data: seq<string>, line: nat): (r: Result<Record>)
    requires |data| >= 1
    ensures |data| < 3 ==> r == Err(IndexError)
    ensures |data| >= 3 && data[2] !in {"v", "c", "a"} ==> r == Err(BadNetworkInput(line, NodeType))
    ensures |data| >= 3 && data[2] in {"v", "c", "a"} && |data| < NodeFieldCount(data[2]) ==>
              r == Err(BadNetworkInput(line, NodeFields))
    ensures r.Ok? ==> |data| >= 3 && data[2] in {"v", "c", "a"} && |data| >= NodeFieldCount(data[2])
                      && r.value.NodeRec? && r.value.name == data[1] && FromReader(r.value)
                      && r.value.ntype == Some(data[2])
                      && HandleFloat(c, data[3]) == Ok(r.value.ht) && HandleFloat(c, data[4]) == Ok(r.value.temp)
                      && (r.value.pres.Some? ==> HandleFloat(c, data[5]) == Ok(r.value.pres.value))
    ensures r.Err? && |data| >= 3 && data[2] in {"v", "c", "a"} && |data| >= NodeFieldCount(data[2]) ==>
              r.error == ValueError
    ensures |data| >= 3 && data[2] in {"v", "c", "a"} && |data| >= NodeFieldCount(data[2]) ==>
              (r.Ok? <==> HandleFloat(c, data[3]).Ok? && HandleFloat(c, data[4]).Ok?
                          && (data[2] != "v" ==> HandleFloat(c, data[5]).Ok?))
  {
    if |data| < 3 then Err(IndexError)
    else if data[2] != "v" && data[2] != "c" && data[2] != "a" then Err(BadNetworkInput(line, NodeType))
    else if data[2] == "v" then
      if |data| < 5 then Err(BadNetworkInput(line, NodeFields))
      else
        var ht :- HandleFloat(c, data[3]);
        var temp :- HandleFloat(c, data[4]);
        Ok(NodeRec(data[1], Some(data[2]), ht, temp, None))
    else if |data| < 6 then Err(BadNetworkInput(line, NodeFields))
    else
      var ht :- HandleFloat(c, data[3]);
      var temp :- HandleFloat(c, data[4]);
      var pres :- HandleFloat(c, data[5]);
      Ok(NodeRec(data[1], Some(data[2]), ht, temp, Some(pres)))
  }

  /** A link line, already split into tokens (data[0] is "link"). */
  function ParseLink(c: Conv, data: seq<string>, line: nat): (r: Result<Record>)
    requires |data| >= 1
    ensures r.Ok? ==> |data| >= 8 && r.value.LinkRec? && r.value == LinkRec(data[1], data[2], r.value.ht1, data[4], r.value.ht2, data[6], r.value.wind)
    ensures r.Ok? ==> (r.value.wind.None? <==> data[7] == "null")
    ensures r.Ok? && r.value.wind.Some? ==> |data| >= 9 && r.value.wind.value.wind == data[7]
    ensures r.Ok? ==> HandleFloat(c, data[3]) == Ok(r.value.ht1) && HandleFloat(c, data[5]) == Ok(r.value.ht2)
    ensures r.Ok? && r.value.wind.Some? ==> HandleFloat(c, data[8]) == Ok(r.value.wind.value.wpmod)
    ensures |data| < 8 || (data[7] != "null" && |data| < 9) ==> r == Err(BadNetworkInput(line, LinkFields))
    ensures r.Err? ==> r.error == BadNetworkInput(line, LinkFields) || r.error == ValueError
    ensures |data| >= 8 && (data[7] == "null" || |data| >= 9) ==>
              (r.Ok? <==> HandleFloat(c, data[3]).Ok? && HandleFloat(c, data[5]).Ok?
                          && (data[7] != "null" ==> HandleFloat(c, data[8]).Ok?))
  {
    if |data| < 8 then Err(BadNetworkInput(line, LinkFields))
    else if data[7] == "null" then
      var ht1 :- HandleFloat(c, data[3]);
      var ht2 :- HandleFloat(c, data[5]);
      Ok(LinkRec(data[1], data[2], ht1, data[4], ht2, data[6], None))
    else if |data| < 9 then Err(BadNetworkInput(line, LinkFields))
    else
      var ht1 :- HandleFloat(c, data[3]);
      var ht2 :- HandleFloat(c, data[5]);
      var wpmod :- HandleFloat(c, data[8]);
      Ok(LinkRec(data[1], data[2], ht1, data[4], ht2, data[6], Some(Wind(data[7], wpmod))))
  }

  /** An element kind whose record is on one line: 3 + |keys| fields at least. */
  function SingleLineElement(c: Conv, data: seq<string>, line: nat, t: ElementType, keys: seq<string>): (r: Result<Record>)
    requires |data| >= 3
    ensures r.Ok? ==> r.value.ElementRec? && r.value == ElementRec(EnumKey(t), data[1], r.value.fields, None)
    ensures r.Ok? ==> r.value.fields.Keys == KeysOf(keys)
    ensures |data| < 3 + |keys| ==> r == Err(BadNetworkInput(line, ElementFields))
    ensures |data| >= 3 + |keys| ==> (r.Ok? <==> Convert(c, keys, data[3..]).Ok?)
    ensures r.Ok? ==> |data| >= 3 + |keys| && r.value.fields == Convert(c, keys, data[3..]).value
    ensures r.Err? ==> r.error == BadNetworkInput(line, ElementFields) || r.error == ValueError
  {
    if |data| < 3 + |keys| then Err(BadNetworkInput(line, ElementFields))
    else
      var fields :- Convert(c, keys, data[3..]);
      Ok(ElementRec(EnumKey(t), data[1], fields, None))
  }

  /** The index of the first line at or after `from` that is not blank:
      what get_next returns, after consuming every line up to it. */
  function NextNonBlank(lines: seq<string>, from: nat): (r: Option<nat>)
    requires from <= |lines|
    ensures r.Some? ==> from <= r.value < |lines| && !IsBlank(lines[r.value])
    ensures r.Some? ==> forall j | from <= j < r.value :: IsBlank(lines[j])
    ensures r.None? ==> forall j | from <= j < |lines| :: IsBlank(lines[j])
    decreases |lines| - from
  {
    if from == |lines| then None
    else if !IsBlank(lines[from]) then Some(from)
    else NextNonBlank(lines, from + 1)
  }

  /** get_next followed by split() and a check of the number of fields,
      inside an element: the end of the input raises BadNetworkInput for
      `missing` and a line with fewer than `need` fields raises it for
      `short`, with the line counter at that moment. */
  function ContinuationAt(lines: seq<string>, pos: nat, need: nat, missing: Reason, short: Reason): (o: (Result<seq<string>>, nat))
    requires pos <= |lines|
    ensures pos <= o.1 <= |lines|
    ensures o.0.Ok? ==> pos < o.1 && |o.0.value| >= need && o.0.value == Split(lines[o.1 - 1])
    ensures o.0.Err? ==> o.0.error == BadNetworkInput(o.1, if o.1 == |lines| && NextNonBlank(lines, pos).None? then missing else short)
  {
    match NextNonBlank(lines, pos)
    case None => (Err(BadNetworkInput(|lines|, missing)), |lines|)
    case Some(k) =>
      var more := Split(lines[k]);
      if |more| < need then (Err(BadNetworkInput(k + 1, short)), k + 1)
      else (Ok(more), k + 1)
  }

  /** dwc and dor: a first line with 3 + |keys| fields, then exactly one
      continuation line with |moreKeys| fields. `pos` is the number of lines
      consumed when the first line was read; the result carries the number
      consumed afterwards. */
  function ReadTwoLine(c: Conv, lines: seq<string>, pos: nat, data: seq<string>,
                       t: ElementType, keys: seq<string>, moreKeys: seq<string>): (o: (Result<Record>, nat))
    requires pos <= |lines| && |data| >= 3
    ensures pos <= o.1 <= |lines|
    ensures o.0.Ok? ==> o.0.value.ElementRec? && o.0.value == ElementRec(EnumKey(t), data[1], o.0.value.fields, None)
    ensures o.0.Ok? ==> o.0.value.fields.Keys == KeysOf(keys) + KeysOf(moreKeys)
    ensures |data| < 3 + |keys| ==> o == (Err(BadNetworkInput(pos, ElementFields)), pos)
    ensures |data| >= 3 + |keys| && Convert(c, keys, data[3..]).Ok? && NextNonBlank(lines, pos).None? ==>
              o == (Err(BadNetworkInput(|lines|, MissingContinuation)), |lines|)
    ensures |data| >= 3 + |keys| && Convert(c, keys, data[3..]).Ok? && NextNonBlank(lines, pos).Some?
            && |Split(lines[NextNonBlank(lines, pos).value])| < |moreKeys| ==>
              o == (Err(BadNetworkInput(NextNonBlank(lines, pos).value + 1, ContinuationFields)), NextNonBlank(lines, pos).value + 1)
    ensures o.0.Ok? ==> && |data| >= 3 + |keys| && NextNonBlank(lines, pos) == Some(o.1 - 1)
                        && |Split(lines[o.1 - 1])| >= |moreKeys|
                        && Convert(c, keys, data[3..]).Ok? && Convert(c, moreKeys, Split(lines[o.1 - 1])).Ok?
                        && o.0.value.fields == Convert(c, keys, data[3..]).value + Convert(c, moreKeys, Split(lines[o.1 - 1])).value
    ensures o.0.Err? ==> o.0.error.BadNetworkInput? || o.0.error == ValueError
    ensures |data| >= 3 + |keys| && Convert(c, keys, data[3..]).Err? ==> o == (Err(ValueError), pos)
    ensures |data| >= 3 + |keys| && Convert(c, keys, data[3..]).Ok? && NextNonBlank(lines, pos).Some?
            && |Split(lines[NextNonBlank(lines, pos).value])| >= |moreKeys| ==>
              o.1 == NextNonBlank(lines, pos).value + 1
              && (o.0.Ok? <==> Convert(c, moreKeys, Split(lines[NextNonBlank(lines, pos).value])).Ok?)
  {
    if |data| < 3 + |keys| then (Err(BadNetworkInput(pos, ElementFields)), pos)
    else match Convert(c, keys, data[3..])
      case Err(e) => (Err(e), pos)
      case Ok(head) =>
        var o := ContinuationAt(lines, pos, |moreKeys|, MissingContinuation, ContinuationFields);
        match o.0
        case Err(e) => (Err(e), o.1)
        case Ok(more) =>
          match Convert(c, moreKeys, more)
          case Err(e) => (Err(e), o.1)
          case Ok(tail) => (Ok(ElementRec(EnumKey(t), data[1], head + tail, None)), o.1)
  }

  /** The second line of a fan: rdens fdf sop ltt as numbers, nr (the
      number of data points) with int(), then mfl. */
  function FanSettings(c: Conv, more: seq<string>): (r: Result<(map<string, Number>, int)>)
    requires |more| >= 6
    ensures r.Ok? ==> r.value.0.Keys == KeysOf(FanMoreKeys) + {"mfl"}
    ensures r.Ok? ==> HandleInt(c, more[4]) == Ok(r.value.1)
    ensures r.Ok? <==> Convert(c, FanMoreKeys, more).Ok? && HandleInt(c, more[4]).Ok? && HandleFloat(c, more[5]).Ok?
    ensures r.Ok? ==> r.value.0 == Convert(c, FanMoreKeys, more).value["mfl" := HandleFloat(c, more[5]).value]
    ensures r.Err? ==> r.error == ValueError
  {
    var fields :- Convert(c, FanMoreKeys, more);
    var nr :- HandleInt(c, more[4]);
    var mfl :- HandleFloat(c, more[5]);
    Ok((fields["mfl" := mfl], nr))
  }

  /** One data point line of a fan (at least five fields). */
  function FanPointOf(c: Conv, d: seq<string>): (r: Result<FanPoint>)
    requires |d| >= 5
    ensures r.Ok? <==> HandleFloat(c, d[0]).Ok? && HandleFloat(c, d[1]).Ok? && HandleFloat(c, d[3]).Ok? && HandleFloat(c, d[4]).Ok?
    ensures r.Ok? ==> r.value == FanPoint(HandleFloat(c, d[0]).value, HandleFloat(c, d[3]).value,
                                          HandleFloat(c, d[4]).value, HandleFloat(c, d[4]).value)
    ensures r.Err? ==> r.error == ValueError
  {
    var a1 :- HandleFloat(c, d[0]);
    var a2First :- HandleFloat(c, d[1]);
    var a2 :- HandleFloat(c, d[3]);
    // a4 and mf convert the same token, so one conversion stands for both.
    var a4 :- HandleFloat(c, d[4]);
    Ok(FanPoint(a1, a2, a4, a4))
  }

  /** How many times `for i in range(n)` runs. */
  function PointCount(n: int): nat {
    if n < 0 then 0 else n
  }

  /** The n data points of a fan, each on its own non-blank line; `for i in
      range(n)` reads nothing when n is not positive. */
  function FanPoints(c: Conv, lines: seq<string>, pos: nat, n: int): (o: (Result<seq<FanPoint>>, nat))
    requires pos <= |lines|
    ensures pos <= o.1 <= |lines|
    ensures o.0.Ok? ==> |o.0.value| == PointCount(n)
    ensures n > 0 && NextNonBlank(lines, pos).None? ==> o == (Err(BadNetworkInput(|lines|, MissingFanData)), |lines|)
    ensures n > 0 && NextNonBlank(lines, pos).Some? && |Split(lines[NextNonBlank(lines, pos).value])| < 5 ==>
              o == (Err(BadNetworkInput(NextNonBlank(lines, pos).value + 1, FanPointFields)), NextNonBlank(lines, pos).value + 1)
    ensures o.0.Err? ==> o.0.error.BadNetworkInput? || o.0.error == ValueError
    ensures n <= 0 ==> o == (Ok([]), pos)
    decreases PointCount(n)
  {
    if n <= 0 then (Ok([]), pos)
    else
      var line := ContinuationAt(lines, pos, 5, MissingFanData, FanPointFields);
      match line.0
      case Err(e) => (Err(e), line.1)
      case Ok(d) =>
        match FanPointOf(c, d)
        case Err(e) => (Err(e), line.1)
        case Ok(p) => PrependPoints([p], FanPoints(c, lines, line.1, n - 1))
  }

  /** A fan after its settings line `more` (read at line `at`): the
      settings and the data points. */
  function FanBody(c: Conv, lines: seq<string>, at: nat, more: seq<string>, name: string, head: map<string, Number>): (o: (Result<Record>, nat))
    requires at <= |lines| && |more| >= 6
    ensures at <= o.1 <= |lines|
    ensures o.0.Ok? ==> o.0.value.ElementRec? && o.0.value.etype == EnumKey(FAN) && o.0.value.name == name
    ensures o.0.Ok? ==> o.0.value.fields.Keys == head.Keys + KeysOf(FanMoreKeys) + {"mfl"} && o.0.value.pts.Some?
    ensures o.0.Ok? ==> HandleInt(c, more[4]).Ok? && |o.0.value.pts.value| == PointCount(HandleInt(c, more[4]).value)
    ensures o.0.Err? ==> o.0.error.BadNetworkInput? || o.0.error == ValueError
  {
    match FanSettings(c, more)
    case Err(e) => (Err(e), at)
    case Ok(settings) =>
      var o := FanPoints(c, lines, at, settings.1);
      match o.0
      case Err(e) => (Err(e), o.1)
      case Ok(pts) => (Ok(ElementRec(EnumKey(FAN), name, head + settings.0, Some(pts))), o.1)
  }

  /** A fan after its first line: the settings line and the data points. */
  function FanRest(c: Conv, lines: seq<string>, pos: nat, name: string, head: map<string, Number>): (o: (Result<Record>, nat))
    requires pos <= |lines|
    ensures pos <= o.1 <= |lines|
    ensures o.0.Ok? ==> o.0.value.ElementRec? && o.0.value.etype == EnumKey(FAN) && o.0.value.name == name
    ensures o.0.Ok? ==> o.0.value.fields.Keys == head.Keys + KeysOf(FanMoreKeys) + {"mfl"} && o.0.value.pts.Some?
    ensures NextNonBlank(lines, pos).None? ==> o == (Err(BadNetworkInput(|lines|, MissingContinuation)), |lines|)
    ensures NextNonBlank(lines, pos).Some? && |Split(lines[NextNonBlank(lines, pos).value])| < 6 ==>
              o == (Err(BadNetworkInput(NextNonBlank(lines, pos).value + 1, ContinuationFields)), NextNonBlank(lines, pos).value + 1)
    ensures o.0.Ok? ==> && NextNonBlank(lines, pos).Some? && |Split(lines[NextNonBlank(lines, pos).value])| >= 6
                        && HandleInt(c, Split(lines[NextNonBlank(lines, pos).value])[4]).Ok?
                        && |o.0.value.pts.value| == PointCount(HandleInt(c, Split(lines[NextNonBlank(lines, pos).value])[4]).value)
    ensures o.0.Err? ==> o.0.error.BadNetworkInput? || o.0.error == ValueError
  {
    var line := ContinuationAt(lines, pos, 6, MissingContinuation, ContinuationFields);
    match line.0
    case Err(e) => (Err(e), line.1)
    case Ok(more) => FanBody(c, lines, line.1, more, name, head)
  }

  /** A fan: first line as for plr, a second line of settings, then the
      data points. */
  function ReadFan(c: Conv, lines: seq<string>, pos: nat, data: seq<string>): (o: (Result<Record>, nat))
    requires pos <= |lines| && |data| >= 3
    ensures pos <= o.1 <= |lines|
    ensures o.0.Ok? ==> o.0.value.ElementRec? && o.0.value.etype == EnumKey(FAN) && o.0.value.name == data[1]
    ensures o.0.Ok? ==> o.0.value.fields.Keys == KeysOf(PlrKeys) + KeysOf(FanMoreKeys) + {"mfl"} && o.0.value.pts.Some?
    ensures |data| < 7 ==> o == (Err(BadNetworkInput(pos, ElementFields)), pos)
    ensures o.0.Ok? ==> && |data| >= 7 && NextNonBlank(lines, pos).Some? && |Split(lines[NextNonBlank(lines, pos).value])| >= 6
                        && HandleInt(c, Split(lines[NextNonBlank(lines, pos).value])[4]).Ok?
                        && |o.0.value.pts.value| == PointCount(HandleInt(c, Split(lines[NextNonBlank(lines, pos).value])[4]).value)
    ensures |data| >= 7 && Convert(c, PlrKeys, data[3..]).Ok? && NextNonBlank(lines, pos).None? ==>
              o == (Err(BadNetworkInput(|lines|, MissingContinuation)), |lines|)
    ensures |data| >= 7 && Convert(c, PlrKeys, data[3..]).Err? ==> o == (Err(ValueError), pos)
    ensures |data| >= 7 && Convert(c, PlrKeys, data[3..]).Ok? ==> o == FanRest(c, lines, pos, data[1], Convert(c, PlrKeys, data[3..]).value)
    ensures o.0.Err? ==> o.0.error.BadNetworkInput? || o.0.error == ValueError
  {
    if |data| < 7 then (Err(BadNetworkInput(pos, ElementFields)), pos)
    else match Convert(c, PlrKeys, data[3..])
      case Err(e) => (Err(e), pos)
      case Ok(head) => FanRest(c, lines, pos, data[1], head)
  }

  /** The element kind a keyword names, if any. */
  function ElementKindOf(w: string): (r: Option<ElementType>)
    ensures r.Some? ==> KindName(r.value) == w
    ensures r.None? ==> forall t: ElementType :: KindName(t) != w
  {
    if w == "plr" then Some(PLR)
    else if w == "dwc" then Some(DWC)
    else if w == "dor" then Some(DOR)
    else if w == "cfr" then Some(CFR)
    else if w == "fan" then Some(FAN)
    else if w == "cpf" then Some(CPF)
    else if w == "qfr" then Some(QFR)
    else if w == "ckv" then Some(CKV)
    else None
  }

  /** The number of fields the first line of an element of kind t needs. */
  function FirstLineFields(t: ElementType): nat {
    match t
    case PLR => 7 case DWC => 7 case DOR => 7 case FAN => 7
    case CFR => 4 case CPF => 6 case QFR => 5 case CKV => 5
  }

  /** The element kinds whose record goes on past its first line. */
  predicate MultiLine(t: ElementType) {
    t == DWC || t == DOR || t == FAN
  }

  /** The keys of an element kind whose record is on one line. */
  function SingleKeys(t: ElementType): (keys: seq<string>)
    requires !MultiLine(t)
    ensures FirstLineFields(t) == 3 + |keys| && RecordKeys(t) == KeysOf(keys)
  {
    if t == PLR then PlrKeys
    else if t == CFR then CfrKeys
    else if t == CPF then CpfKeys
    else if t == QFR then QfrKeys
    else CkvKeys
  }

  /** The dwc, dor and fan branches. */
  function ReadMultiLine(c: Conv, lines: seq<string>, pos: nat, data: seq<string>, t: ElementType): (o: (Result<Record>, nat))
    requires pos <= |lines| && |data| >= 3 && MultiLine(t)
    ensures pos <= o.1 <= |lines|
    ensures o.0.Ok? ==> o.0.value.ElementRec? && o.0.value.etype == EnumKey(t) && o.0.value.name == data[1]
    ensures o.0.Ok? ==> o.0.value.fields.Keys == RecordKeys(t) && (o.0.value.pts.Some? <==> t == FAN)
    ensures |data| < FirstLineFields(t) ==> o == (Err(BadNetworkInput(pos, ElementFields)), pos)
    ensures o.0.Ok? ==> |data| >= FirstLineFields(t) && pos < o.1
    ensures o.0.Err? ==> ReaderError(o.0.error)
  {
    if t == DWC then ReadTwoLine(c, lines, pos, data, DWC, DwcKeys, DwcMoreKeys)
    else if t == DOR then ReadTwoLine(c, lines, pos, data, DOR, PlrKeys, DorMoreKeys)
    else ReadFan(c, lines, pos, data)
  }

  /** The element of kind t whose first line is data. */
  function ReadKind(c: Conv, lines: seq<string>, pos: nat, data: seq<string>, t: ElementType): (o: (Result<Record>, nat))
    requires pos <= |lines| && |data| >= 3
    ensures pos <= o.1 <= |lines|
    ensures o.0.Ok? ==> o.0.value.ElementRec? && o.0.value.etype == EnumKey(t) && o.0.value.name == data[1]
    ensures o.0.Ok? ==> o.0.value.fields.Keys == RecordKeys(t) && (o.0.value.pts.Some? <==> t == FAN)
    ensures |data| < FirstLineFields(t) ==> o == (Err(BadNetworkInput(pos, ElementFields)), pos)
    ensures o.0.Ok? ==> |data| >= FirstLineFields(t)
    ensures !MultiLine(t) ==> o.1 == pos
    ensures MultiLine(t) && o.0.Ok? ==> pos < o.1
    ensures o.0.Err? ==> ReaderError(o.0.error)
  {
    if MultiLine(t) then ReadMultiLine(c, lines, pos, data, t)
    else (SingleLineElement(c, data, pos, t, SingleKeys(t)), pos)
  }

  /** An element line, already split into tokens (data[0] is "element"),
      with whatever further lines its kind needs. */
  function ReadElement(c: Conv, lines: seq<string>, pos: nat, data: seq<string>): (o: (Result<Record>, nat))
    requires pos <= |lines| && |data| >= 1
    ensures pos <= o.1 <= |lines|
    ensures o.0.Ok? ==> |data| >= 3 && FromReader(o.0.value) && o.0.value.ElementRec?
                        && o.0.value.name == data[1] && KindName(o.0.value.etype.member) == data[2]
                        && |data| >= FirstLineFields(o.0.value.etype.member)
    ensures |data| < 3 ==> o == (Err(IndexError), pos)
    ensures |data| >= 3 && ElementKindOf(data[2]).None? ==> o == (Err(BadNetworkInput(pos, UnknownElement)), pos)
    ensures |data| >= 3 && ElementKindOf(data[2]).Some? && |data| < FirstLineFields(ElementKindOf(data[2]).value) ==>
              o == (Err(BadNetworkInput(pos, ElementFields)), pos)
    ensures o.0.Err? ==> ReaderError(o.0.error)
  {
    if |data| < 3 then (Err(IndexError), pos)
    else match ElementKindOf(data[2])
      case None => (Err(BadNetworkInput(pos, UnknownElement)), pos)
      case Some(t) => ReadKind(c, lines, pos, data, t)
  }

  /** The outcome of one call of __next__ and the reader's state after it. */
  datatype NextOut = NextOut(step: Step, pos: nat, title: Option<string>)

  /** The step returned a title record. */
  predicate TitleStep(o: NextOut) {
    o.step.Item? && o.step.record.TitleRec?
  }

  /** What __next__ promises about its outcome from a reader that stored
      `title`: records have the reader's shape, a title record is returned
      only while no non-empty title is stored and is then stored, and
      nothing else changes the stored title. */
  predicate NextContract(o: NextOut, title: Option<string>) {
    && (o.step.Item? ==> FromReader(o.step.record))
    && (TitleStep(o) ==> !Truthy(title) && o.title == Some(o.step.record.title))
    && (!TitleStep(o) ==> o.title == title)
  }

  /** One call of __next__ on a reader that has consumed `pos` lines and
      stored `title`. */
  function NextSpec(c: Conv, lines: seq<string>, pos: nat, title: Option<string>): (o: NextOut)
    requires pos <= |lines|
    ensures pos <= o.pos <= |lines| && (o.step.Item? ==> pos < o.pos)
    ensures NextContract(o, title)
    decreases |lines| - pos, 1
  {
    match NextNonBlank(lines, pos)
    case None => NextOut(Stop, |lines|, title)
    case Some(k) => NextAt(c, lines, k, title)
  }

  /** The keywords that start a record line. */
  datatype Keyword = NodeLine | ElementLine | LinkLine

  function KeywordOf(w: string): (r: Option<Keyword>)
    ensures r == Some(NodeLine) <==> w == "node"
    ensures r == Some(ElementLine) <==> w == "element"
    ensures r == Some(LinkLine) <==> w == "link"
  {
    if w == "node" then Some(NodeLine)
    else if w == "element" then Some(ElementLine)
    else if w == "link" then Some(LinkLine)
    else None
  }

  /** A node, element or link line split into data, once `pos` lines are
      consumed (the last of them this one). */
  function RecordAt(c: Conv, lines: seq<string>, pos: nat, data: seq<string>, kw: Keyword): (o: (Result<Record>, nat))
    requires 0 < pos <= |lines| && |data| >= 1
    ensures pos <= o.1 <= |lines|
    ensures o.0.Ok? ==> FromReader(o.0.value) && !o.0.value.TitleRec?
    ensures o.0.Ok? ==> (o.0.value.NodeRec? <==> kw == NodeLine) && (o.0.value.ElementRec? <==> kw == ElementLine)
                        && (o.0.value.LinkRec? <==> kw == LinkLine)
    ensures kw != ElementLine ==> o.1 == pos
    ensures o.0.Err? ==> ReaderError(o.0.error)
  {
    match kw
    case NodeLine => (ParseNode(c, data, pos), pos)
    case ElementLine => ReadElement(c, lines, pos, data)
    case LinkLine => (ParseLink(c, data, pos), pos)
  }

  /** A title line, once `pos` lines are consumed. */
  function TitleAt(line: string, pos: nat, title: Option<string>): (o: NextOut)
    ensures o.pos == pos
    ensures o.step.Item? <==> !Truthy(title)
    ensures o.step.Item? ==> o.step.record == TitleRec(TitleText(line)) && o.title == Some(TitleText(line))
    ensures o.step.Fail? ==> o.step.error == BadNetworkInput(pos, ExtraTitle) && o.title == title
  {
    if Truthy(title) then NextOut(Fail(BadNetworkInput(pos, ExtraTitle)), pos, title)
    else NextOut(Item(TitleRec(TitleText(line))), pos, Some(TitleText(line)))
  }

  /** The rest of __next__ once the non-blank line k has been read. */
  function NextAt(c: Conv, lines: seq<string>, k: nat, title: Option<string>): (o: NextOut)
    requires k < |lines| && !IsBlank(lines[k])
    ensures k < o.pos <= |lines|
    ensures NextContract(o, title)
    decreases |lines| - k, 0
  {
    var line := lines[k];
    if StartsWith(line, "*") then NextOut(Stop, k + 1, title)
    else if StartsWith(Lstrip(line), "title") then TitleAt(line, k + 1, title)
    else
      var data := Split(line);
      match KeywordOf(data[0])
      case Some(kw) =>
        var o := RecordAt(c, lines, k + 1, data, kw);
        NextOut(ToStep(o.0), o.1, title)
      case None => NextSpec(c, lines, k + 1, title)
  }

  /** `for item in reader`: every record up to StopIteration, or the first
      exception raised. */
  function ReadAll(c: Conv, lines: seq<string>, pos: nat, title: Option<string>): (r: Result<seq<Record>>)
    requires pos <= |lines|
    ensures r.Ok? ==> |r.value| <= |lines| - pos
    decreases |lines| - pos
  {
    var o := NextSpec(c, lines, pos, title);
    match o.step
    case Stop => Ok([])
    case Fail(e) => Err(e)
    case Item(rec) =>
      var rest :- ReadAll(c, lines, o.pos, o.title);
      Ok([rec] + rest)
  }

  function PrependRecords(items: seq<Record>, r: Result<seq<Record>>): Result<seq<Record>> {
    if r.Ok? then Ok(items + r.value) else r
  }

  function PrependPoints(pts: seq<FanPoint>, o: (Result<seq<FanPoint>>, nat)): (Result<seq<FanPoint>>, nat) {
    (if o.0.Ok? then Ok(pts + o.0.value) else o.0, o.1)
  }

  lemma PrependNoPoints(o: (Result<seq<FanPoint>>, nat))
    ensures PrependPoints([], o) == o
  {
    if o.0.Ok? {
      assert [] + o.0.value == o.0.value;
    }
  }

  lemma PrependPointsAssoc(pts: seq<FanPoint>, p: FanPoint, o: (Result<seq<FanPoint>>, nat))
    ensures PrependPoints(pts, PrependPoints([p], o)) == PrependPoints(pts + [p], o)
  {
    if o.0.Ok? {
      assert pts + ([p] + o.0.value) == (pts + [p]) + o.0.value;
    }
  }

  /** What FanPoints does with its first data point line. */
  lemma FanPointsStep(c: Conv, lines: seq<string>, pos: nat, n: int)
    requires pos <= |lines| && n > 0
    ensures var line := ContinuationAt(lines, pos, 5, MissingFanData, FanPointFields);
            FanPoints(c, lines, pos, n) ==
              if line.0.Err? then (Err(line.0.error), line.1)
              else if FanPointOf(c, line.0.value).Err? then (Err(FanPointOf(c, line.0.value).error), line.1)
              else PrependPoints([FanPointOf(c, line.0.value).value], FanPoints(c, lines, line.1, n - 1))
  {
  }

  /** Each data point of a fan is read from the next non-blank line with
      at least five fields, and the remaining points from the lines after
      it. */
  lemma FanPointsNext(c: Conv, lines: seq<string>, pos: nat, n: int)
    requires pos <= |lines| && n > 0
    requires NextNonBlank(lines, pos).Some? && |Split(lines[NextNonBlank(lines, pos).value])| >= 5
    ensures var k := NextNonBlank(lines, pos).value;
            && (FanPointOf(c, Split(lines[k])).Err? ==> FanPoints(c, lines, pos, n) == (Err(ValueError), k + 1))
            && (FanPointOf(c, Split(lines[k])).Ok? ==>
                  FanPoints(c, lines, pos, n) == PrependPoints([FanPointOf(c, Split(lines[k])).value], FanPoints(c, lines, k + 1, n - 1)))
  {
  }

  /** The line a continuation read takes is the next non-blank one, and it
      is accepted exactly when it has enough fields. */
  lemma ContinuationAtLine(lines: seq<string>, pos: nat, need: nat, missing: Reason, short: Reason)
    requires pos <= |lines|
    ensures var o := ContinuationAt(lines, pos, need, missing, short);
            && (NextNonBlank(lines, pos).None? ==> o == (Err(BadNetworkInput(|lines|, missing)), |lines|))
            && (NextNonBlank(lines, pos).Some? ==>
                  o.1 == NextNonBlank(lines, pos).value + 1
                  && (o.0.Ok? <==> |Split(lines[NextNonBlank(lines, pos).value])| >= need))
  {
  }

  /** With a settings line of enough fields at k, a fan goes on as FanBody from k + 1. */
  lemma FanRestAt(c: Conv, lines: seq<string>, pos: nat, name: string, head: map<string, Number>, k: nat)
    requires pos <= |lines| && NextNonBlank(lines, pos) == Some(k) && |Split(lines[k])| >= 6
    ensures FanRest(c, lines, pos, name, head) == FanBody(c, lines, k + 1, Split(lines[k]), name, head)
  {
    var line := ContinuationAt(lines, pos, 6, MissingContinuation, ContinuationFields);
    assert line.1 == k + 1;
    assert line.0 == Ok(Split(lines[k]));
  }

  /** After a fan's settings line come its points: the record holds the
      first line's fields with the settings, and the points FanPoints reads
      from the line after the settings. */
  lemma FanBodyValues(c: Conv, lines: seq<string>, at: nat, more: seq<string>, name: string, head: map<string, Number>)
    requires at <= |lines| && |more| >= 6
    ensures FanSettings(c, more).Err? ==> FanBody(c, lines, at, more, name, head) == (Err(ValueError), at)
    ensures FanSettings(c, more).Ok? ==>
              FanBody(c, lines, at, more, name, head).1 == FanPoints(c, lines, at, FanSettings(c, more).value.1).1
    ensures FanSettings(c, more).Ok? ==>
              (FanBody(c, lines, at, more, name, head).0.Ok? <==> FanPoints(c, lines, at, FanSettings(c, more).value.1).0.Ok?)
    ensures FanSettings(c, more).Ok? && FanBody(c, lines, at, more, name, head).0.Ok? ==>
              && FanBody(c, lines, at, more, name, head).0.value.fields == head + FanSettings(c, more).value.0
              && FanBody(c, lines, at, more, name, head).0.value.pts == Some(FanPoints(c, lines, at, FanSettings(c, more).value.1).0.value)
  {
  }

  /** NextSpec reads the next non-blank line and goes on with NextAt. */
  lemma NextSpecStep(c: Conv, lines: seq<string>, pos: nat, title: Option<string>)
    requires pos <= |lines|
    ensures NextNonBlank(lines, pos).None? ==> NextSpec(c, lines, pos, title) == NextOut(Stop, |lines|, title)
    ensures NextNonBlank(lines, pos).Some? ==>
              NextSpec(c, lines, pos, title) == NextAt(c, lines, NextNonBlank(lines, pos).value, title)
  {
  }

  /** The cases of the while loop of __next__ for the non-blank line k: a
      line starting with `*` raises StopIteration, a title line is handled
      by TitleAt, a line starting with a keyword gives that kind of record,
      and any other line is skipped. */
  lemma NextAtCases(c: Conv, lines: seq<string>, k: nat, title: Option<string>)
    requires k < |lines| && !IsBlank(lines[k])
    ensures StartsWith(lines[k], "*") ==> NextAt(c, lines, k, title) == NextOut(Stop, k + 1, title)
    ensures !StartsWith(lines[k], "*") && StartsWith(Lstrip(lines[k]), "title") ==>
              NextAt(c, lines, k, title) == TitleAt(lines[k], k + 1, title)
    ensures !StartsWith(lines[k], "*") && !StartsWith(Lstrip(lines[k]), "title") && KeywordOf(Split(lines[k])[0]).Some? ==>
              var o := RecordAt(c, lines, k + 1, Split(lines[k]), KeywordOf(Split(lines[k])[0]).value);
              NextAt(c, lines, k, title) == NextOut(ToStep(o.0), o.1, title)
    ensures !StartsWith(lines[k], "*") && !StartsWith(Lstrip(lines[k]), "title") && KeywordOf(Split(lines[k])[0]).None? ==>
              NextAt(c, lines, k, title) == NextSpec(c, lines, k + 1, title)
  {
  }

  /** __next__ raises nothing but the reader's own exceptions. */
  lemma {:induction false} NextSpecErrors(c: Conv, lines: seq<string>, pos: nat, title: Option<string>)
    requires pos <= |lines|
    ensures NextSpec(c, lines, pos, title).step.Fail? ==> ReaderError(NextSpec(c, lines, pos, title).step.error)
    decreases |lines| - pos
  {
    NextSpecStep(c, lines, pos, title);
    match NextNonBlank(lines, pos)
    case None =>
    case Some(k) =>
      NextAtCases(c, lines, k, title);
      if !StartsWith(lines[k], "*") && !StartsWith(Lstrip(lines[k]), "title") && KeywordOf(Split(lines[k])[0]).None? {
        NextSpecErrors(c, lines, k + 1, title);
      }
  }

  /** A line starting with `*` ends the iteration: nothing after it is read. */
  lemma {:induction false} StarEndsInput(c: Conv, lines: seq<string>, pos: nat, title: Option<string>)
    requires pos <= |lines| && NextNonBlank(lines, pos).Some? && StartsWith(lines[NextNonBlank(lines, pos).value], "*")
    ensures ReadAll(c, lines, pos, title) == Ok([])
  {
    ReadAllStep(c, lines, pos, title);
  }

  /** What ReadAll does with the outcome of one call of __next__. */
  lemma ReadAllStep(c: Conv, lines: seq<string>, pos: nat, title: Option<string>)
    requires pos <= |lines|
    ensures var o := NextSpec(c, lines, pos, title);
            ReadAll(c, lines, pos, title) ==
              match o.step
              case Stop => Ok([])
              case Fail(e) => Err(e)
              case Item(rec) => PrependRecords([rec], ReadAll(c, lines, o.pos, o.title))
  {
  }

  lemma PrependNoRecords(r: Result<seq<Record>>)
    ensures PrependRecords([], r) == r
  {
    if r.Ok? {
      assert [] + r.value == r.value;
    }
  }

  lemma PrependRecordsAssoc(items: seq<Record>, rec: Record, r: Result<seq<Record>>)
    ensures PrependRecords(items, PrependRecords([rec], r)) == PrependRecords(items + [rec], r)
  {
    if r.Ok? {
      assert items + ([rec] + r.value) == (items + [rec]) + r.value;
    }
  }

  class Reader {
    /** The line stream fp. */
    const lines: seq<string>
    const conv: Conv
    /** line_number: how many lines of fp have been consumed. */
    var lineNumber: nat
    var title: Option<string>

    ghost predicate Valid()
      reads this
    {
      lineNumber <= |lines|
    }

    constructor (fp: seq<string>, floats: bool, parseFloat: string -> Option<real>, parseInt: string -> Option<int>)
      ensures Valid()
      ensures lines == fp && conv == Conv(floats, parseFloat, parseInt)
      ensures lineNumber == 0 && title == None
    {
      lines := fp;
      conv := Conv(floats, parseFloat, parseInt);
      lineNumber := 0;
      title := None;
    }

    /** get_next: the next line that is not blank; None stands for the
        StopIteration raised at the end of fp. */
    method GetNext() returns (line: Option<string>)
      requires Valid()
      modifies this`lineNumber
      ensures Valid()
      ensures line.None? <==> NextNonBlank(lines, old(lineNumber)).None?
      ensures line.None? ==> lineNumber == |lines|
      ensures line.Some? ==> 0 < lineNumber && NextNonBlank(lines, old(lineNumber)) == Some(lineNumber - 1) && line.value == lines[lineNumber - 1]
    {
      if lineNumber == |lines| {
        return None;
      }
      var next := lines[lineNumber];
      lineNumber := lineNumber + 1;
      while IsBlank(next)
        invariant Valid()
        invariant old(lineNumber) < lineNumber <= |lines| && next == lines[lineNumber - 1]
        invariant forall j | old(lineNumber) <= j < lineNumber - 1 :: IsBlank(lines[j])
        decreases |lines| - lineNumber
      {
        if lineNumber == |lines| {
          return None;
        }
        next := lines[lineNumber];
        lineNumber := lineNumber + 1;
      }
      return Some(next);
    }

    /** get_next, split() and the check of the number of fields that
        each continuation line of an element goes through. */
    method ReadLine(need: nat, missing: Reason, short: Reason) returns (r: Result<seq<string>>)
      requires Valid()
      modifies this`lineNumber
      ensures Valid()
      ensures (r, lineNumber) == ContinuationAt(lines, old(lineNumber), need, missing, short)
    {
      var next := GetNext();
      if next.None? {
        return Err(BadNetworkInput(lineNumber, missing));
      }
      var data := Split(next.value);
      if |data| < need {
        return Err(BadNetworkInput(lineNumber, short));
      }
      return Ok(data);
    }

    /** The for loop that reads the data points of a fan. */
    method ReadFanPoints(nr: int) returns (r: Result<seq<FanPoint>>)
      requires Valid()
      modifies this`lineNumber
      ensures Valid()
      ensures (r, lineNumber) == FanPoints(conv, lines, old(lineNumber), nr)
    {
      var pts: seq<FanPoint> := [];
      var i := 0;
      PrependNoPoints(FanPoints(conv, lines, lineNumber, nr));
      while i < nr
        invariant Valid() && 0 <= i && |pts| == i
        invariant FanPoints(conv, lines, old(lineNumber), nr) == PrependPoints(pts, FanPoints(conv, lines, lineNumber, nr - i))
        decreases nr - i
      {
        FanPointsStep(conv, lines, lineNumber, nr - i);
        var data := ReadLine(5, MissingFanData, FanPointFields);
        if data.Err? {
          return Err(data.error);
        }
        var p := FanPointOf(conv, data.value);
        if p.Err? {
          return Err(p.error);
        }
        PrependPointsAssoc(pts, p.value, FanPoints(conv, lines, lineNumber, nr - i - 1));
        pts := pts + [p.value];
        i := i + 1;
      }
      assert pts + [] == pts;
      return Ok(pts);
    }

    /** The dwc and dor branches of __next__. */
    method ReadContinued(data: seq<string>, t: ElementType, keys: seq<string>, moreKeys: seq<string>)
      returns (r: Result<Record>)
      requires Valid() && |data| >= 3
      modifies this`lineNumber
      ensures Valid()
      ensures (r, lineNumber) == ReadTwoLine(conv, lines, old(lineNumber), data, t, keys, moreKeys)
    {
      if |data| < 3 + |keys| {
        return Err(BadNetworkInput(lineNumber, ElementFields));
      }
      var head :- Convert(conv, keys, data[3..]);
      var more :- ReadLine(|moreKeys|, MissingContinuation, ContinuationFields);
      var tail :- Convert(conv, moreKeys, more);
      return Ok(ElementRec(EnumKey(t), data[1], head + tail, None));
    }

    /** The fan branch of __next__. */
    method ReadFanElement(data: seq<string>) returns (r: Result<Record>)
      requires Valid() && |data| >= 3
      modifies this`lineNumber
      ensures Valid()
      ensures (r, lineNumber) == ReadFan(conv, lines, old(lineNumber), data)
    {
      if |data| < 7 {
        return Err(BadNetworkInput(lineNumber, ElementFields));
      }
      var head :- Convert(conv, PlrKeys, data[3..]);
      var more :- ReadLine(6, MissingContinuation, ContinuationFields);
      var settings :- FanSettings(conv, more);
      var pts :- ReadFanPoints(settings.1);
      return Ok(ElementRec(EnumKey(FAN), data[1], head + settings.0, Some(pts)));
    }

    /** The element branch of __next__. */
    method ReadElementBranch(data: seq<string>) returns (r: Result<Record>)
      requires Valid() && |data| >= 1
      modifies this`lineNumber
      ensures Valid()
      ensures (r, lineNumber) == ReadElement(conv, lines, old(lineNumber), data)
    {
      if |data| < 3 {
        return Err(IndexError);
      }
      var kind := ElementKindOf(data[2]);
      if kind.None? {
        return Err(BadNetworkInput(lineNumber, UnknownElement));
      }
      match kind.value
      case PLR =>
        r := SingleLineElement(conv, data, lineNumber, PLR, PlrKeys);
      case DWC =>
        r := ReadContinued(data, DWC, DwcKeys, DwcMoreKeys);
      case DOR =>
        r := ReadContinued(data, DOR, PlrKeys, DorMoreKeys);
      case CFR =>
        r := SingleLineElement(conv, data, lineNumber, CFR, CfrKeys);
      case FAN =>
        r := ReadFanElement(data);
      case CPF =>
        r := SingleLineElement(conv, data, lineNumber, CPF, CpfKeys);
      case QFR =>
        r := SingleLineElement(conv, data, lineNumber, QFR, QfrKeys);
      case CKV =>
        r := SingleLineElement(conv, data, lineNumber, CKV, CkvKeys);
    }

    /** The node, element and link branches of __next__. */
    method ReadRecord(data: seq<string>, kw: Keyword) returns (r: Result<Record>)
      requires Valid() && 0 < lineNumber && |data| >= 1
      modifies this`lineNumber
      ensures Valid()
      ensures (r, lineNumber) == RecordAt(conv, lines, old(lineNumber), data, kw)
    {
      match kw
      case NodeLine =>
        r := ParseNode(conv, data, lineNumber);
      case ElementLine =>
        r := ReadElementBranch(data);
      case LinkLine =>
        r := ParseLink(conv, data, lineNumber);
    }

    /** The body of the while loop of __next__ for one non-blank line:
        done when the line returns or raises, not done when the line is
        skipped. */
    method LineStep(line: string) returns (done: bool, step: Step)
      requires Valid() && 0 < lineNumber && line == lines[lineNumber - 1] && !IsBlank(line)
      modifies this`lineNumber, this`title
      ensures Valid()
      ensures done ==> NextOut(step, lineNumber, title) == NextAt(conv, lines, old(lineNumber) - 1, old(title))
      ensures !done ==> lineNumber == old(lineNumber) && title == old(title)
                        && NextAt(conv, lines, lineNumber - 1, title) == NextSpec(conv, lines, lineNumber, title)
    {
      if StartsWith(line, "*") {
        return true, Stop;
      }
      if StartsWith(Lstrip(line), "title") {
        if Truthy(title) {
          return true, Fail(BadNetworkInput(lineNumber, ExtraTitle));
        }
        title := Some(TitleText(line));
        return true, Item(TitleRec(title.value));
      }
      var data := Split(line);
      var kw := KeywordOf(data[0]);
      if kw.Some? {
        var r := ReadRecord(data, kw.value);
        return true, ToStep(r);
      }
      return false, Stop;
    }

    /** __next__: skips lines that start with no keyword, stops at a line
        that starts with '*', and otherwise returns the record of the first
        title, node, element or link line. */
    method Next() returns (step: Step)
      requires Valid()
      modifies this`lineNumber, this`title
      ensures Valid()
      ensures NextOut(step, lineNumber, title) == NextSpec(conv, lines, old(lineNumber), old(title))
    {
      while true
        invariant Valid() && title == old(title)
        invariant NextSpec(conv, lines, old(lineNumber), old(title)) == NextSpec(conv, lines, lineNumber, title)
        decreases |lines| - lineNumber
      {
        var done;
        done, step := NextLine();
        if done {
          return;
        }
      }
    }

    /** One turn of the while loop of __next__: get_next, then the line. */
    method NextLine() returns (done: bool, step: Step)
      requires Valid()
      modifies this`lineNumber, this`title
      ensures Valid()
      ensures done ==> NextOut(step, lineNumber, title) == NextSpec(conv, lines, old(lineNumber), old(title))
      ensures !done ==> old(lineNumber) < lineNumber && title == old(title)
                        && NextSpec(conv, lines, old(lineNumber), title) == NextSpec(conv, lines, lineNumber, title)
    {
      NextSpecStep(conv, lines, lineNumber, title);
      var next := GetNext();
      if next.None? {
        return true, Stop;
      }
      ghost var at := NextAt(conv, lines, lineNumber - 1, title);
      assert NextSpec(conv, lines, old(lineNumber), title) == at;
      done, step := LineStep(next.value);
    }

    /** `for item in reader: items.append(item)`. */
    method Items() returns (r: Result<seq<Record>>)
      requires Valid()
      modifies this`lineNumber, this`title
      ensures Valid()
      ensures r == ReadAll(conv, lines, old(lineNumber), old(title))
    {
      var items: seq<Record> := [];
      PrependNoRecords(ReadAll(conv, lines, lineNumber, title));
      while true
        invariant Valid()
        invariant ReadAll(conv, lines, old(lineNumber), old(title)) == PrependRecords(items, ReadAll(conv, lines, lineNumber, title))
        decreases |lines| - lineNumber
      {
        ReadAllStep(conv, lines, lineNumber, title);
        var step := Next();
        match step
        case Stop =>
          assert items + [] == items;
          return Ok(items);
        case Fail(e) =>
          return Err(e);
        case Item(rec) =>
          PrependRecordsAssoc(items, rec, ReadAll(conv, lines, lineNumber, title));
          items := items + [rec];
      }
    }
  }
}
