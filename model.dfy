/** Network assembly, src/airnet/model.py: Model.__init__ turns the reader's
    records into a network of nodes, links and elements, numbers the
    variable nodes, and set_properties fills in the air properties of
    those nodes. */
module Network {
  import opened Values
  import opened Reader
  import opened Afedat

  /** The constructor arguments of a Node, which it never changes. */
  datatype NodeInit = NodeInit(name: string, variable: bool, height: Number, temperature: Number, pressure: Number)

  /** The air properties a node carries, all 0.0 when it is built. */
  datatype Derived = Derived(density: real, viscosity: real, sqrtDensity: real, dvisc: real)

  const Unset := Derived(0.0, 0.0, 0.0, 0.0)

  /** The Node a node record gives: the type entry is popped with 'c' as
      default and the node is variable exactly when the type is 'c'; a
      record without pres leaves the default 0.0. */
  function NodeOf(r: Record): (n: NodeInit)
    requires r.NodeRec?
    ensures n.name == r.name && n.height == r.ht && n.temperature == r.temp
    ensures n.variable <==> (r.ntype.None? || r.ntype == Some("c"))
    ensures r.pres.Some? ==> n.pressure == r.pres.value
    ensures r.pres.None? ==> n.pressure == Float(0.0)
  {
    NodeInit(r.name, r.ntype.GetOr("c") == "c", r.ht, r.temp, r.pres.GetOr(Float(0.0)))
  }

  /** One node of set_properties: the properties after the update and the
      exception that stopped it, if any. Fields are written in the order
      density, sqrt_density, viscosity, dvisc, so a failing step leaves the
      earlier ones written. A pressure or temperature that is a token makes
      the arithmetic raise TypeError, a zero temperature or viscosity
      ZeroDivisionError, and a negative density makes math.sqrt raise
      ValueError. sqrt is math.sqrt. */
  function Refreshed(p: Derived, pressure: Number, temperature: Number, sqrt: real -> real): (o: (Derived, Option<Exception>))
    ensures o.1.None? <==> pressure.Float? && temperature.Float? && temperature.value != 0.0
                           && o.0.density >= 0.0 && o.0.viscosity != 0.0
    ensures o.1.None? ==> o.0.sqrtDensity == sqrt(o.0.density) && o.0.dvisc * o.0.viscosity == o.0.density
    ensures pressure.Float? && temperature.Float? && temperature.value != 0.0 ==>
      o.0.density * temperature.value == 0.0034838 * (101325.0 + pressure.value)
    ensures pressure.Float? && temperature.Float? && temperature.value != 0.0 && o.0.density >= 0.0 ==>
      o.0.viscosity == 0.0000171432 + 0.00000004828 * (temperature.value - 273.15) && o.0.sqrtDensity == sqrt(o.0.density)
    ensures o.1.Some? ==> o.1.value in {TypeError, ZeroDivisionError, ValueError}
  {
    if pressure.Raw? || temperature.Raw? then (p, Some(TypeError))
    else if temperature.value == 0.0 then (p, Some(ZeroDivisionError))
    else
      var density := 0.0034838 * (101325.0 + pressure.value) / temperature.value;
      if density < 0.0 then (p.(density := density), Some(ValueError))
      else
        var viscosity := 0.0000171432 + 0.00000004828 * (temperature.value - 273.15);
        if viscosity == 0.0 then
          (Derived(density, viscosity, sqrt(density), p.dvisc), Some(ZeroDivisionError))
        else
          (Derived(density, viscosity, sqrt(density), density / viscosity), None)
  }

  /** What a failed update leaves: nothing written when the arithmetic
      cannot start, and only the density when it is negative. */
  lemma RefreshedStops(p: Derived, pressure: Number, temperature: Number, sqrt: real -> real)
    ensures pressure.Raw? || temperature.Raw? || temperature.value == 0.0 ==> Refreshed(p, pressure, temperature, sqrt).0 == p
    ensures Refreshed(p, pressure, temperature, sqrt).0.density < 0.0 ==>
              Refreshed(p, pressure, temperature, sqrt).0 == p.(density := Refreshed(p, pressure, temperature, sqrt).0.density)
  {
  }

  /** Which exception each cause raises: a token among the inputs
      TypeError, a zero temperature or viscosity ZeroDivisionError, a
      negative density ValueError. */
  lemma RefreshedRaises(p: Derived, pressure: Number, temperature: Number, sqrt: real -> real)
    ensures pressure.Raw? || temperature.Raw? ==> Refreshed(p, pressure, temperature, sqrt).1 == Some(TypeError)
    ensures pressure.Float? && temperature == Float(0.0) ==> Refreshed(p, pressure, temperature, sqrt).1 == Some(ZeroDivisionError)
    ensures pressure.Float? && temperature.Float? && temperature.value != 0.0 ==>
              (Refreshed(p, pressure, temperature, sqrt).0.density < 0.0 <==> Refreshed(p, pressure, temperature, sqrt).1 == Some(ValueError))
    ensures pressure.Float? && temperature.Float? && temperature.value != 0.0 && Refreshed(p, pressure, temperature, sqrt).0.density >= 0.0 ==>
              (Refreshed(p, pressure, temperature, sqrt).0.viscosity == 0.0 <==> Refreshed(p, pressure, temperature, sqrt).1 == Some(ZeroDivisionError))
  {
  }

  /** Repeating set_properties on unchanged inputs gives the same result. */
  lemma RefreshedIdempotent(p: Derived, pressure: Number, temperature: Number, sqrt: real -> real)
    requires Refreshed(p, pressure, temperature, sqrt).1.None?
    ensures Refreshed(Refreshed(p, pressure, temperature, sqrt).0, pressure, temperature, sqrt)
         == Refreshed(p, pressure, temperature, sqrt)
  {
  }

  /** The density grows with the pressure at a fixed positive temperature. */
  lemma DensityIncreasesWithPressure(p: Derived, lo: real, hi: real, temperature: real, sqrt: real -> real)
    requires lo <= hi && temperature > 0.0
    ensures Refreshed(p, Float(lo), Float(temperature), sqrt).0.density
         <= Refreshed(p, Float(hi), Float(temperature), sqrt).0.density
  {
    var a := 0.0034838 * (101325.0 + lo);
    var b := 0.0034838 * (101325.0 + hi);
    assert a <= b;
    DivideMonotone(a, b, temperature);
  }

  lemma DivideMonotone(a: real, b: real, d: real)
    requires a <= b && d > 0.0
    ensures a / d <= b / d
  {
  }

  /** model.Node. The constructor arguments are constants; set_properties
      writes the air properties and Model.__init__ the index. */
  class Node {
    const name: string
    const variable: bool
    const height: Number
    const temperature: Number
    const pressure: Number
    var index: Option<nat>
    var density: real
    var viscosity: real
    var sqrtDensity: real
    var dvisc: real

    function Init(): NodeInit {
      NodeInit(name, variable, height, temperature, pressure)
    }

    function Current(): Derived
      reads this`density, this`viscosity, this`sqrtDensity, this`dvisc
    {
      Derived(density, viscosity, sqrtDensity, dvisc)
    }

    constructor (init: NodeInit)
      ensures Init() == init && index.None? && Current() == Unset
    {
      name := init.name;
      variable := init.variable;
      height := init.height;
      temperature := init.temperature;
      pressure := init.pressure;
      index := None;
      density, viscosity, sqrtDensity, dvisc := 0.0, 0.0, 0.0, 0.0;
    }

    /** The body of the loop in set_properties, for this node. */
    method Update(sqrt: real -> real) returns (err: Option<Exception>)
      modifies this`density, this`viscosity, this`sqrtDensity, this`dvisc
      ensures (Current(), err) == Refreshed(old(Current()), pressure, temperature, sqrt)
      ensures index == old(index)
    {
      if pressure.Raw? || temperature.Raw? {
        return Some(TypeError);
      }
      if temperature.value == 0.0 {
        return Some(ZeroDivisionError);
      }
      density := 0.0034838 * (101325.0 + pressure.value) / temperature.value;
      if density < 0.0 {
        return Some(ValueError);
      }
      sqrtDensity := sqrt(density);
      viscosity := 0.0000171432 + 0.00000004828 * (temperature.value - 273.15);
      if viscosity == 0.0 {
        return Some(ZeroDivisionError);
      }
      dvisc := density / viscosity;
      return None;
    }
  }

  /** What calculate can read from a Node: model.py's Node has no sqrtd
      attribute (its square root of density is called sqrt_density). */
  function EndpointOf(n: Node): (p: Endpoint)
    reads n`dvisc
    ensures p.dvisc == n.dvisc && p.sqrtd.None?
  {
    Endpoint(n.dvisc, None)
  }

  /** Afe_Plr.calculate on two nodes of the model: a Node sets
      sqrt_density, never sqrtd, so every nonzero pressure drop stops at
      the missing attribute and only a zero drop gives a flow. */
  lemma CalculateOnModelNodes(e: Element, a: Node, b: Node, pdrop: real, pow: (real, real) -> real)
    ensures var r := Calculate(e, EndpointOf(a), EndpointOf(b), pdrop, pow);
      r.Ok? <==> e.Plr? && e.lam.Float? && pdrop == 0.0
    ensures e.Plr? && e.lam.Float? && e.turb.Float? && pdrop != 0.0 ==>
      Calculate(e, EndpointOf(a), EndpointOf(b), pdrop, pow) == Err(AttributeError)
    ensures e.Plr? && e.lam.Float? && pdrop > 0.0 ==> Calculate(e, EndpointOf(a), EndpointOf(b), pdrop, pow) == Err(AttributeError)
    ensures e.Plr? && e.lam.Raw? ==> Calculate(e, EndpointOf(a), EndpointOf(b), pdrop, pow) == Err(TypeError)
  {
  }

  /** model.Link: the two end nodes are the Node objects of the model. */
  datatype Link = Link(name: string, node0: Node, ht0: Number, node1: Node, ht1: Number,
                       element: Element, wind: Option<string>, wpmod: Number, mult: Number)

  /** A link record names end nodes and an element the model has. */
  predicate Resolvable(rec: Record, nodes: set<string>, elements: set<string>)
    requires rec.LinkRec?
  {
    rec.node1 in nodes && rec.node2 in nodes && rec.element in elements
  }

  /** The Link a resolvable link record gives; wind and wpmod keep their
      defaults None and 0.0 on a record without them, and mult is 1.0. */
  function LinkOf(rec: Record, nodes: map<string, Node>, elements: map<string, Element>): (l: Link)
    requires rec.LinkRec? && Resolvable(rec, nodes.Keys, elements.Keys)
    ensures l.node0 == nodes[rec.node1] && l.node1 == nodes[rec.node2] && l.element == elements[rec.element]
    ensures l.name == rec.name && l.ht0 == rec.ht1 && l.ht1 == rec.ht2 && l.mult == Float(1.0)
    ensures rec.wind.None? ==> l.wind.None? && l.wpmod == Float(0.0)
    ensures rec.wind.Some? ==> l.wind == Some(rec.wind.value.wind) && l.wpmod == rec.wind.value.wpmod
  {
    match rec.wind
    case None =>
      Link(rec.name, nodes[rec.node1], rec.ht1, nodes[rec.node2], rec.ht2, elements[rec.element], None, Float(0.0), Float(1.0))
    case Some(w) =>
      Link(rec.name, nodes[rec.node1], rec.ht1, nodes[rec.node2], rec.ht2, elements[rec.element], Some(w.wind), w.wpmod, Float(1.0))
  }

  /** The state of the first loop of Model.__init__: the title, the nodes
      by name with their dict order, the link records held back, and the
      elements by name. */
  datatype Gathered = Gathered(title: string, nodes: map<string, NodeInit>, order: seq<string>,
                               links: seq<Record>, elements: map<string, Element>)

  const Start := Gathered("", map[], [], [], map[])

  /** A record the first loop can take: anything but an element record,
      or an element record whose type is in the table and whose class
      accepts its entries. */
  predicate Buildable(lookup: map<Key, ElementClass>, rec: Record) {
    rec.ElementRec? ==> rec.etype in lookup && Construct(lookup[rec.etype], rec.fields, rec.pts.Some?).Ok?
  }

  /** One record of the first loop. A node or element record replaces an
      earlier one of the same name, which keeps its place in the order. An
      element's type is looked up in the table (KeyError when missing) and
      the class is called with the record's remaining entries. */
  function GatherStep(lookup: map<Key, ElementClass>, g: Gathered, rec: Record): (r: Result<Gathered>)
    ensures r.Ok? <==> Buildable(lookup, rec)
    ensures r.Err? ==> rec.ElementRec? && r.error == (if rec.etype in lookup then TypeError else KeyError)
  {
    match rec
    case TitleRec(t) => Ok(g.(title := t))
    case NodeRec(name, _, _, _, _) =>
      Ok(g.(nodes := g.nodes[name := NodeOf(rec)],
            order := if name in g.nodes then g.order else g.order + [name]))
    case LinkRec(_, _, _, _, _, _, _) => Ok(g.(links := g.links + [rec]))
    case ElementRec(k, name, fields, pts) =>
      if k !in lookup then Err(KeyError)
      else
        var e :- Construct(lookup[k], fields, pts.Some?);
        Ok(g.(elements := g.elements[name := e]))
  }

  /** The first loop over the records, from state g: it completes exactly
      when every record can be taken, and otherwise raises KeyError or
      TypeError; what it gathers only grows. */
  function GatherFrom(lookup: map<Key, ElementClass>, g: Gathered, rs: seq<Record>): (r: Result<Gathered>)
    ensures r.Ok? <==> forall rec <- rs :: Buildable(lookup, rec)
    ensures r.Err? ==> r.error in {KeyError, TypeError}
    decreases |rs|
  {
    if rs == [] then Ok(g)
    else
      assert forall rec <- rs :: rec == rs[0] || rec in rs[1..];
      match GatherStep(lookup, g, rs[0])
      case Err(e) => Err(e)
      case Ok(g1) => GatherFrom(lookup, g1, rs[1..])
  }

  /** What one record changes: a title record the title, a node record its
      node (appending a new name to the order), a link record the held-back
      links, an element record its element; nothing else. */
  lemma GatherStepEffects(lookup: map<Key, ElementClass>, g: Gathered, rec: Record)
    requires GatherStep(lookup, g, rec).Ok?
    ensures var g1 := GatherStep(lookup, g, rec).value;
      && g1.title == (if rec.TitleRec? then rec.title else g.title)
      && g1.nodes == (if rec.NodeRec? then g.nodes[rec.name := NodeOf(rec)] else g.nodes)
      && g1.order == (if rec.NodeRec? && rec.name !in g.nodes then g.order + [rec.name] else g.order)
      && g1.links == (if rec.LinkRec? then g.links + [rec] else g.links)
      && g1.elements == (if rec.ElementRec?
                         then g.elements[rec.name := Construct(lookup[rec.etype], rec.fields, rec.pts.Some?).value]
                         else g.elements)
  {
  }

  /** The first loop only adds: the links and the order are extended, and
      no node or element name is lost. */
  lemma {:induction false} GatherFromGrows(lookup: map<Key, ElementClass>, g: Gathered, rs: seq<Record>)
    requires GatherFrom(lookup, g, rs).Ok?
    ensures var g2 := GatherFrom(lookup, g, rs).value;
      && g.links <= g2.links && g.order <= g2.order
      && g.nodes.Keys <= g2.nodes.Keys && g.elements.Keys <= g2.elements.Keys
    decreases |rs|
  {
    if rs != [] {
      var g1 := GatherStep(lookup, g, rs[0]).value;
      GatherStepEffects(lookup, g, rs[0]);
      GatherFromGrows(lookup, g1, rs[1..]);
    }
  }

  /** Model.__init__'s first loop, from the empty model. */
  function Gather(lookup: map<Key, ElementClass>, rs: seq<Record>): (r: Result<Gathered>)
    ensures r.Ok? <==> forall rec <- rs :: Buildable(lookup, rec)
    ensures r.Err? ==> r.error in {KeyError, TypeError}
  {
    GatherFrom(lookup, Start, rs)
  }

  /** The shape the first loop keeps: only link records are held back, and
      the order lists every node name once. */
  predicate WellGathered(g: Gathered) {
    && (forall rec <- g.links :: rec.LinkRec?)
    && Distinct(g.order)
    && (forall k <- g.order :: k in g.nodes)
    && (forall k <- g.nodes :: k in g.order)
  }

  lemma {:induction false} GatherFromWell(lookup: map<Key, ElementClass>, g: Gathered, rs: seq<Record>)
    requires WellGathered(g) && GatherFrom(lookup, g, rs).Ok?
    ensures WellGathered(GatherFrom(lookup, g, rs).value)
    decreases |rs|
  {
    if rs != [] {
      var g1 := GatherStep(lookup, g, rs[0]).value;
      if rs[0].NodeRec? && rs[0].name !in g.nodes {
        assert Distinct(g1.order) by {
          forall i, j | 0 <= i < j < |g1.order| ensures g1.order[i] != g1.order[j] {
            if j == |g.order| {
              assert g1.order[i] == g.order[i];
            }
          }
        }
      }
      GatherFromWell(lookup, g1, rs[1..]);
    }
  }

  /** The first loop over a + b is the loop over a, then over b. */
  lemma {:induction false} GatherAppend(lookup: map<Key, ElementClass>, g: Gathered, a: seq<Record>, b: seq<Record>)
    ensures GatherFrom(lookup, g, a + b) ==
      match GatherFrom(lookup, g, a)
      case Err(e) => Err(e)
      case Ok(g1) => GatherFrom(lookup, g1, b)
    decreases |a|
  {
    if a != [] {
      assert (a + b)[0] == a[0] && (a + b)[1..] == a[1..] + b;
      match GatherStep(lookup, g, a[0])
      case Err(_) =>
      case Ok(g1) => GatherAppend(lookup, g1, a[1..], b);
    } else {
      assert a + b == b;
    }
  }

  lemma GatherLast(lookup: map<Key, ElementClass>, rs: seq<Record>)
    requires rs != []
    ensures Gather(lookup, rs) ==
      match Gather(lookup, rs[..|rs| - 1])
      case Err(e) => Err(e)
      case Ok(g) => GatherStep(lookup, g, rs[|rs| - 1])
  {
    var n := |rs| - 1;
    assert rs == rs[..n] + [rs[n]];
    GatherAppend(lookup, Start, rs[..n], [rs[n]]);
    match Gather(lookup, rs[..n])
    case Err(_) =>
    case Ok(g) =>
      assert [rs[n]][1..] == [];
      match GatherStep(lookup, g, rs[n])
      case Err(_) =>
      case Ok(_) =>
  }

  /** The text of the last title record, if any. */
  function LastTitle(rs: seq<Record>): Option<string> {
    if rs == [] then None
    else if rs[|rs| - 1].TitleRec? then Some(rs[|rs| - 1].title)
    else LastTitle(rs[..|rs| - 1])
  }

  /** The last node record called name, if any. */
  function LastNode(rs: seq<Record>, name: string): (r: Option<Record>)
    ensures r.Some? ==> r.value.NodeRec? && r.value.name == name
  {
    if rs == [] then None
    else if rs[|rs| - 1].NodeRec? && rs[|rs| - 1].name == name then Some(rs[|rs| - 1])
    else LastNode(rs[..|rs| - 1], name)
  }

  /** The link records, in input order. */
  function LinkRecords(rs: seq<Record>): (ls: seq<Record>)
    ensures forall rec <- ls :: rec.LinkRec? && rec in rs
  {
    if rs == [] then []
    else
      var rest := LinkRecords(rs[1..]);
      assert forall rec <- rest :: rec in rs by {
        forall rec <- rest ensures rec in rs {
          assert rec in rs[1..];
        }
      }
      (if rs[0].LinkRec? then [rs[0]] else []) + rest
  }

  /** After the first loop the title is that of the last title record, or
      '' when there is none. */
  lemma {:induction false} GatherTitle(lookup: map<Key, ElementClass>, rs: seq<Record>)
    requires Gather(lookup, rs).Ok?
    ensures Gather(lookup, rs).value.title == LastTitle(rs).GetOr("")
    decreases |rs|
  {
    if rs != [] {
      var n := |rs| - 1;
      GatherLast(lookup, rs);
      GatherTitle(lookup, rs[..n]);
    }
  }

  /** After the first loop a name has a node exactly when some node record
      has it, and the node is built from the last such record. */
  lemma {:induction false} GatherNodes(lookup: map<Key, ElementClass>, rs: seq<Record>)
    requires Gather(lookup, rs).Ok?
    ensures forall name :: name in Gather(lookup, rs).value.nodes <==> LastNode(rs, name).Some?
    ensures forall name | name in Gather(lookup, rs).value.nodes ::
      Gather(lookup, rs).value.nodes[name] == NodeOf(LastNode(rs, name).value)
    decreases |rs|
  {
    if rs != [] {
      var n := |rs| - 1;
      GatherLast(lookup, rs);
      GatherNodes(lookup, rs[..n]);
    }
  }

  /** The links held back are the link records, in input order. */
  lemma {:induction false} GatherFromLinks(lookup: map<Key, ElementClass>, g: Gathered, rs: seq<Record>)
    requires GatherFrom(lookup, g, rs).Ok?
    ensures GatherFrom(lookup, g, rs).value.links == g.links + LinkRecords(rs)
    decreases |rs|
  {
    if rs == [] {
      assert g.links + [] == g.links;
    } else {
      var g1 := GatherStep(lookup, g, rs[0]).value;
      GatherFromLinks(lookup, g1, rs[1..]);
      if rs[0].LinkRec? {
        assert g.links + [rs[0]] + LinkRecords(rs[1..]) == g.links + ([rs[0]] + LinkRecords(rs[1..]));
      } else {
        assert [] + LinkRecords(rs[1..]) == LinkRecords(rs[1..]);
      }
    }
  }

  /** The reader tags element records with ElementType members while
      object_lookup is keyed by strings: with the default table, a network
      with any element in it fails with KeyError. */
  lemma {:induction false} ReaderElementsNotInObjectLookup(g: Gathered, rs: seq<Record>, i: nat)
    requires forall rec <- rs :: FromReader(rec)
    requires i < |rs| && rs[i].ElementRec?
    ensures GatherFrom(ObjectLookup, g, rs) == Err(KeyError)
    decreases |rs|
  {
    ObjectLookupExact();
    if rs[0].ElementRec? {
      assert FromReader(rs[0]);
    } else {
      var g1 := GatherStep(ObjectLookup, g, rs[0]).value;
      assert forall rec <- rs[1..] :: rec in rs;
      assert rs[1..][i - 1] == rs[i];
      ReaderElementsNotInObjectLookup(g1, rs[1..], i - 1);
    }
  }

  /** The class object_lookup holds under an element kind's own keyword. */
  function ClassFor(t: ElementType): (cls: ElementClass)
    ensures Tag(cls) == KindName(t)
  {
    match t
    case PLR => AfePlr case DWC => AfeDwc case DOR => AfeDor case CFR => AfeCfr
    case FAN => AfeFan case CPF => AfeCpf case QFR => AfeQfr case CKV => AfeCkv
  }

  /** Even looked up by its keyword, the record the reader builds for dwc
      (len, dh, rgh), fan (ltt, mfl) and ckv (coeff) uses keyword names the
      constructor does not take and raises TypeError; the other kinds are
      accepted. */
  lemma ReaderFieldsAgainstConstructors(t: ElementType, fields: map<string, Number>)
    requires fields.Keys == RecordKeys(t)
    ensures ObjectLookup[StrKey(KindName(t))] == ClassFor(t)
    ensures Construct(ClassFor(t), fields, t == FAN).Ok? <==> t !in {DWC, FAN, CKV}
  {
    ObjectLookupExact();
    if t in {DWC, FAN, CKV} {
      RefusedKeyword(t);
    } else {
      AcceptedKeywords(t);
    }
  }

  lemma RefusedKeyword(t: ElementType)
    requires t in {DWC, FAN, CKV}
    ensures exists k :: k in RecordKeys(t) && k !in Params(ClassFor(t))
  {
    match t
    case DWC => assert DwcKeys[0] == "len" && "len" in RecordKeys(t);
    case FAN => assert FanMoreKeys[3] == "ltt" && "ltt" in RecordKeys(t);
    case CKV =>
      assert CkvKeys[1] == "coeff" && "coeff" in RecordKeys(t);
      assert |"coeff"| != |"coef"|;
  }

  lemma AcceptedKeywords(t: ElementType)
    requires t !in {DWC, FAN, CKV}
    ensures RecordKeys(t) <= Params(ClassFor(t))
  {
    match t
    case PLR =>
    case DOR =>
    case CFR =>
    case CPF =>
    case QFR =>
  }

  /** The reader's ElementType has no member for the prv element. */
  lemma NoPrvElementType(t: ElementType)
    ensures ClassFor(t) != AfePrv && KindName(t) != Tag(AfePrv)
  {
  }

  /** The names of the variable nodes, as a set. */
  function VariableSet(nodes: map<string, NodeInit>): set<string> {
    set k | k in nodes && nodes[k].variable
  }

  /** The Node objects agree with the constructor arguments in inits. */
  predicate Agree(nodes: map<string, Node>, inits: map<string, NodeInit>) {
    nodes.Keys == inits.Keys && forall k | k in nodes :: nodes[k].Init() == inits[k]
  }

  /** Different names hold different Node objects. */
  predicate Injective(nodes: map<string, Node>) {
    forall a, b | a in nodes && b in nodes && a != b :: nodes[a] != nodes[b]
  }

  /** nodes.values(): the Node objects in the dict's insertion order. */
  function DictValues(order: seq<string>, nodes: map<string, Node>): (ns: seq<Node>)
    requires forall k <- order :: k in nodes
    ensures |ns| == |order| && forall j | 0 <= j < |order| :: ns[j] == nodes[order[j]]
  {
    if order == [] then []
    else
      var n := |order| - 1;
      assert forall k <- order[..n] :: k in order;
      DictValues(order[..n], nodes) + [nodes[order[n]]]
  }

  /** Different names in order give different objects. */
  lemma DictValuesDistinct(order: seq<string>, nodes: map<string, Node>)
    requires Distinct(order) && Injective(nodes) && forall k <- order :: k in nodes
    ensures var ns := DictValues(order, nodes); forall i, j | 0 <= i < j < |ns| :: ns[i] != ns[j]
  {
  }

  /** The variable nodes among ns, in order. */
  function VariableNodes(ns: seq<Node>): (vs: seq<Node>)
    ensures forall n <- vs :: n in ns && n.variable
  {
    if ns == [] then []
    else
      var n := |ns| - 1;
      var vs := VariableNodes(ns[..n]);
      assert forall m <- vs :: m in ns by {
        forall m <- vs ensures m in ns {
          var i :| 0 <= i < n && ns[..n][i] == m;
          assert ns[i] == m;
        }
      }
      vs + (if ns[n].variable then [ns[n]] else [])
  }

  lemma VariableNodesSnoc(ns: seq<Node>, i: nat)
    requires i < |ns|
    ensures VariableNodes(ns[..i + 1]) == VariableNodes(ns[..i]) + (if ns[i].variable then [ns[i]] else [])
  {
    assert ns[..i + 1][..i] == ns[..i];
  }

  /** The names in order whose nodes are variable. */
  ghost function VariableKeys(order: seq<string>, nodes: map<string, Node>): set<string>
    requires forall k <- order :: k in nodes
  {
    set k | k in order && nodes[k].variable
  }

  lemma VariableKeysSnoc(order: seq<string>, nodes: map<string, Node>)
    requires order != [] && forall k <- order :: k in nodes
    ensures var n := |order| - 1;
      && (forall k <- order[..n] :: k in nodes)
      && VariableKeys(order, nodes)
         == VariableKeys(order[..n], nodes) + (if nodes[order[n]].variable then {order[n]} else {})
  {
    var n := |order| - 1;
    assert forall k <- order[..n] :: k in order;
    forall k | k in order ensures k in order[..n] || k == order[n] {
      var i :| 0 <= i < |order| && order[i] == k;
      if i < n {
        assert order[..n][i] == k;
      }
    }
  }

  lemma VariableNodesOfSnoc(order: seq<string>, nodes: map<string, Node>)
    requires order != [] && forall k <- order :: k in nodes
    ensures var n := |order| - 1;
      && (forall k <- order[..n] :: k in nodes)
      && |VariableNodes(DictValues(order, nodes))|
         == |VariableNodes(DictValues(order[..n], nodes))| + (if nodes[order[n]].variable then 1 else 0)
  {
    var n := |order| - 1;
    var ns := DictValues(order, nodes);
    assert ns[..n] == DictValues(order[..n], nodes);
    assert ns[..n + 1] == ns;
    VariableNodesSnoc(ns, n);
  }

  /** In a sequence of distinct nodes, a node is not among the variable
      nodes before it. */
  lemma NotYetNumbered(ns: seq<Node>, i: nat)
    requires i < |ns| && forall a, b | 0 <= a < b < |ns| :: ns[a] != ns[b]
    ensures ns[i] !in VariableNodes(ns[..i])
  {
    forall m | 0 <= m < i ensures ns[..i][m] != ns[i] {
      assert ns[..i][m] == ns[m];
    }
  }

  /** Numbering the variable nodes in dict order counts each variable node
      once. */
  lemma {:induction false} VariableCount(order: seq<string>, nodes: map<string, Node>)
    requires Distinct(order) && forall k <- order :: k in nodes
    ensures |VariableNodes(DictValues(order, nodes))| == |VariableKeys(order, nodes)|
    decreases |order|
  {
    if order != [] {
      var n := |order| - 1;
      var p := order[..n];
      DistinctPrefix(order);
      VariableKeysSnoc(order, nodes);
      VariableNodesOfSnoc(order, nodes);
      VariableCount(p, nodes);
      ghost var kp := VariableKeys(p, nodes);
      if nodes[order[n]].variable {
        assert |kp + {order[n]}| == |kp| + 1;
      } else {
        assert kp + {} == kp;
      }
    }
  }

  /** Dropping the last element keeps a sequence distinct, and that element
      is not among the others. */
  lemma DistinctPrefix<T>(s: seq<T>)
    requires s != [] && Distinct(s)
    ensures Distinct(s[..|s| - 1]) && s[|s| - 1] !in s[..|s| - 1]
  {
    var n := |s| - 1;
    forall i | 0 <= i < n ensures s[..n][i] != s[n] {
      assert s[..n][i] == s[i];
    }
  }

  /** When order lists every node once, that count is the number of
      variable nodes. */
  lemma VariableCountAll(order: seq<string>, nodes: map<string, Node>, inits: map<string, NodeInit>)
    requires Distinct(order) && (forall k <- order :: k in nodes) && (forall k <- nodes :: k in order)
    requires Agree(nodes, inits)
    ensures |VariableNodes(DictValues(order, nodes))| == |VariableSet(inits)|
  {
    VariableCount(order, nodes);
    assert VariableKeys(order, nodes) == VariableSet(inits) by {
      forall k | k in inits ensures nodes[k].variable == inits[k].variable {
        assert nodes[k].Init() == inits[k];
      }
    }
  }

  /** The first loop of Model.__init__ unrolled by one record. */
  lemma GatherFromAt(lookup: map<Key, ElementClass>, g: Gathered, rs: seq<Record>, i: nat)
    requires i < |rs|
    ensures GatherFrom(lookup, g, rs[i..]) ==
      match GatherStep(lookup, g, rs[i])
      case Err(e) => Err(e)
      case Ok(g1) => GatherFrom(lookup, g1, rs[i + 1..])
  {
    assert rs[i..][0] == rs[i] && rs[i..][1..] == rs[i + 1..];
  }

  /** A node's properties are the result of one update from p, with the
      exception err. */
  ghost predicate RefreshedFrom(p: Derived, n: Node, sqrt: real -> real, err: Option<Exception>)
    reads n`density, n`viscosity, n`sqrtDensity, n`dvisc
  {
    Refreshed(p, n.pressure, n.temperature, sqrt) == (n.Current(), err)
  }

  /** The numbering Model.__init__ leaves behind: order lists the names of
      nodes once each, variable_nodes lists the variable nodes in dict
      order, each carries its position as index, size is their number, and
      the other nodes have no index. */
  ghost predicate Numbered(order: seq<string>, nodes: map<string, Node>, variableNodes: seq<Node>, size: nat)
    reads nodes.Values`index, variableNodes`index
  {
    && Distinct(order) && (forall k :: k in order <==> k in nodes)
    && Injective(nodes)
    && variableNodes == VariableNodes(DictValues(order, nodes))
    && size == |variableNodes|
    && (forall j | 0 <= j < |variableNodes| :: variableNodes[j].index == Some(j))
    && (forall k | k in nodes && !nodes[k].variable :: nodes[k].index.None?)
  }

  /** model.Model. nodes is a dict whose insertion order is order. */
  class Model {
    var title: string
    var nodes: map<string, Node>
    var order: seq<string>
    var links: seq<Link>
    var elements: map<string, Element>
    var variableNodes: seq<Node>
    var size: nat

    /** The numbering of the variable nodes. */
    ghost predicate Valid()
      reads this, nodes.Values`index, variableNodes`index
    {
      Numbered(order, nodes, variableNodes, size)
    }

    constructor (title: string, nodes: map<string, Node>, order: seq<string>, links: seq<Link>,
                 elements: map<string, Element>, variableNodes: seq<Node>, size: nat)
      ensures this.title == title && this.nodes == nodes && this.order == order && this.links == links
      ensures this.elements == elements && this.variableNodes == variableNodes && this.size == size
    {
      this.title := title;
      this.nodes := nodes;
      this.order := order;
      this.links := links;
      this.elements := elements;
      this.variableNodes := variableNodes;
      this.size := size;
    }

    /** The first loop of Model.__init__: title, nodes and elements are
        filled in and link records are held back. err is the exception an
        element record raised. */
    static method Collect(lookup: map<Key, ElementClass>, rs: seq<Record>)
      returns (err: Option<Exception>, title: string, nodes: map<string, Node>, order: seq<string>,
               linkRecs: seq<Record>, elements: map<string, Element>, ghost g: Gathered)
      ensures err.None? <==> Gather(lookup, rs).Ok?
      ensures err.Some? ==> err.value == Gather(lookup, rs).error
      ensures err.None? ==> g == Gather(lookup, rs).value
      ensures err.None? ==> title == g.title && order == g.order && linkRecs == g.links && elements == g.elements
      ensures err.None? ==> Agree(nodes, g.nodes) && Injective(nodes)
      ensures err.None? ==> forall k | k in nodes :: fresh(nodes[k]) && nodes[k].index.None? && nodes[k].Current() == Unset
    {
      g := Start;
      title, nodes, order, linkRecs, elements := "", map[], [], [], map[];
      var i := 0;
      while i < |rs|
        invariant i <= |rs|
        invariant GatherFrom(lookup, g, rs[i..]) == Gather(lookup, rs)
        invariant title == g.title && order == g.order && linkRecs == g.links && elements == g.elements
        invariant Agree(nodes, g.nodes) && Injective(nodes)
        invariant forall k | k in nodes :: fresh(nodes[k]) && nodes[k].index.None? && nodes[k].Current() == Unset
      {
        GatherFromAt(lookup, g, rs, i);
        var rec := rs[i];
        match rec {
          case TitleRec(t) =>
            title := t;
          case NodeRec(name, _, _, _, _) =>
            var n := new Node(NodeOf(rec));
            if name !in nodes {
              order := order + [name];
            }
            nodes := nodes[name := n];
          case LinkRec(_, _, _, _, _, _, _) =>
            linkRecs := linkRecs + [rec];
          case ElementRec(k, name, fields, pts) =>
            if k !in lookup {
              err := Some(KeyError);
              return;
            }
            var e := Construct(lookup[k], fields, pts.Some?);
            if e.Err? {
              err := Some(e.error);
              return;
            }
            elements := elements[name := e.value];
        }
        g := GatherStep(lookup, g, rec).value;
        i := i + 1;
      }
      assert rs[i..] == [];
      err := None;
    }

    /** The second loop of Model.__init__: each link record, in order,
        becomes a Link between the named Node objects; a name that is not
        there raises KeyError. */
    static method Resolve(linkRecs: seq<Record>, nodes: map<string, Node>, elements: map<string, Element>)
      returns (err: Option<Exception>, links: seq<Link>)
      requires forall rec <- linkRecs :: rec.LinkRec?
      ensures err.None? <==> forall rec <- linkRecs :: Resolvable(rec, nodes.Keys, elements.Keys)
      ensures err.Some? ==> err.value == KeyError
      ensures err.None? ==> |links| == |linkRecs|
      ensures err.None? ==> forall j | 0 <= j < |links| :: links[j] == LinkOf(linkRecs[j], nodes, elements)
    {
      links := [];
      var i := 0;
      while i < |linkRecs|
        invariant i <= |linkRecs| && |links| == i
        invariant forall j | 0 <= j < i :: Resolvable(linkRecs[j], nodes.Keys, elements.Keys)
        invariant forall j | 0 <= j < i :: links[j] == LinkOf(linkRecs[j], nodes, elements)
      {
        var rec := linkRecs[i];
        if !Resolvable(rec, nodes.Keys, elements.Keys) {
          return Some(KeyError), links;
        }
        links := links + [LinkOf(rec, nodes, elements)];
        i := i + 1;
      }
      err := None;
    }

    /** The third loop of Model.__init__, over nodes.values(): the variable
        nodes get the indices 0, 1, ... and are collected in vn. */
    static method Number(ns: seq<Node>) returns (vn: seq<Node>, count: nat)
      requires forall i, j | 0 <= i < j < |ns| :: ns[i] != ns[j]
      requires forall j | 0 <= j < |ns| :: ns[j].index.None?
      modifies ns`index
      ensures count == |vn| && vn == VariableNodes(ns)
      ensures forall j | 0 <= j < |vn| :: vn[j].index == Some(j)
      ensures forall j | 0 <= j < |ns| && !ns[j].variable :: ns[j].index.None?
    {
      vn, count := [], 0;
      var i := 0;
      while i < |ns|
        invariant i <= |ns| && count == |vn| && vn == VariableNodes(ns[..i])
        invariant forall j | 0 <= j < |vn| :: vn[j].index == Some(j)
        invariant forall j | 0 <= j < |ns| && (i <= j || !ns[j].variable) :: ns[j].index.None?
      {
        var node := ns[i];
        VariableNodesSnoc(ns, i);
        if node.variable {
          NotYetNumbered(ns, i);
          node.index := Some(count);
          vn := vn + [node];
          count := count + 1;
        }
        i := i + 1;
      }
      assert ns[..i] == ns;
    }

    /** The third loop of Model.__init__ on the node dict: the variable
        nodes in dict order are numbered 0, 1, ..., and count is how many
        of the nodes are variable. */
    static method Index(order: seq<string>, nodes: map<string, Node>, ghost inits: map<string, NodeInit>)
      returns (vn: seq<Node>, count: nat)
      requires Distinct(order) && (forall k :: k in order <==> k in nodes) && Injective(nodes)
      requires Agree(nodes, inits) && forall k | k in nodes :: nodes[k].index.None?
      modifies nodes.Values`index
      ensures Numbered(order, nodes, vn, count) && count == |VariableSet(inits)|
    {
      var ns := DictValues(order, nodes);
      DictValuesDistinct(order, nodes);
      vn, count := Number(ns);
      VariableCountAll(order, nodes, inits);
      forall k | k in nodes && !nodes[k].variable ensures nodes[k].index.None? {
        var j :| 0 <= j < |order| && order[j] == k;
        assert ns[j] == nodes[k];
      }
    }

    /** The end of Model.__init__: the variable nodes are numbered and the
        model holds what the loops collected. */
    static method Assemble(title: string, nodes: map<string, Node>, order: seq<string>, links: seq<Link>,
                           elements: map<string, Element>, ghost inits: map<string, NodeInit>)
      returns (m: Model)
      requires Distinct(order) && (forall k :: k in order <==> k in nodes) && Injective(nodes)
      requires Agree(nodes, inits)
      requires forall k | k in nodes :: nodes[k].index.None? && nodes[k].Current() == Unset
      modifies nodes.Values`index
      ensures fresh(m) && m.Valid() && m.size == |VariableSet(inits)|
      ensures m.title == title && m.nodes == nodes && m.order == order && m.links == links && m.elements == elements
      ensures forall k | k in nodes :: nodes[k].Current() == Unset
    {
      var vn, count := Index(order, nodes, inits);
      m := new Model(title, nodes, order, links, elements, vn, count);
    }

    /** Model(network_input, element_lookup). The Python constructor either
        raises or returns the model; Build gives the exception or the
        model. */
    static method Build(networkInput: seq<Record>, elementLookup: map<Key, ElementClass>) returns (r: Result<Model>)
      ensures var q := Gather(elementLookup, networkInput);
        r.Ok? <==> q.Ok? && forall rec <- q.value.links :: rec.LinkRec? && Resolvable(rec, q.value.nodes.Keys, q.value.elements.Keys)
      ensures var q := Gather(elementLookup, networkInput);
        r.Err? ==> r.error == (if q.Err? then q.error else KeyError)
      ensures r.Ok? ==> var g, m := Gather(elementLookup, networkInput).value, r.value;
        && fresh(m) && m.Valid()
        && m.title == g.title && m.order == g.order && m.elements == g.elements
        && Agree(m.nodes, g.nodes) && m.size == |VariableSet(g.nodes)|
        && |m.links| == |g.links|
        && (forall j | 0 <= j < |m.links| :: g.links[j].LinkRec? && Resolvable(g.links[j], m.nodes.Keys, m.elements.Keys)
              && m.links[j] == LinkOf(g.links[j], m.nodes, m.elements))
        && (forall k | k in m.nodes :: fresh(m.nodes[k]) && m.nodes[k].Current() == Unset)
    {
      var err, title, nodes, order, linkRecs, elements, g := Collect(elementLookup, networkInput);
      if err.Some? {
        return Err(err.value);
      }
      GatherFromWell(elementLookup, Start, networkInput);
      var err2, links := Resolve(linkRecs, nodes, elements);
      if err2.Some? {
        return Err(KeyError);
      }
      assert forall k :: k in order <==> k in nodes;
      var m := Assemble(title, nodes, order, links, elements, g.nodes);
      return Ok(m);
    }

    /** set_properties(): the variable nodes are updated in order; the first
        exception stops the loop and leaves the nodes after it as they
        were. Nodes that are not variable are never touched. */
    method SetProperties(sqrt: real -> real) returns (err: Option<Exception>)
      requires Valid()
      modifies variableNodes`density, variableNodes`viscosity, variableNodes`sqrtDensity, variableNodes`dvisc
      ensures Valid()
      ensures forall k | k in nodes && !nodes[k].variable :: unchanged(nodes[k])
      ensures err.None? ==> forall j | 0 <= j < |variableNodes| ::
        RefreshedFrom(old(variableNodes[j].Current()), variableNodes[j], sqrt, None)
      ensures err.Some? ==> exists t | 0 <= t < |variableNodes| ::
        && (forall j | 0 <= j < t :: RefreshedFrom(old(variableNodes[j].Current()), variableNodes[j], sqrt, None))
        && RefreshedFrom(old(variableNodes[t].Current()), variableNodes[t], sqrt, err)
        && (forall j | t < j < |variableNodes| :: variableNodes[j].Current() == old(variableNodes[j].Current()))
    {
      NonVariableNotNumbered();
      err := RefreshAll(variableNodes, sqrt);
    }

    /** The loop of set_properties over the nodes vn, which are distinct:
        each carries its position as index. */
    static method RefreshAll(vn: seq<Node>, sqrt: real -> real) returns (err: Option<Exception>)
      requires forall j | 0 <= j < |vn| :: vn[j].index == Some(j)
      modifies vn`density, vn`viscosity, vn`sqrtDensity, vn`dvisc
      ensures err.None? ==> forall j | 0 <= j < |vn| :: RefreshedFrom(old(vn[j].Current()), vn[j], sqrt, None)
      ensures err.Some? ==> exists t | 0 <= t < |vn| ::
        && (forall j | 0 <= j < t :: RefreshedFrom(old(vn[j].Current()), vn[j], sqrt, None))
        && RefreshedFrom(old(vn[t].Current()), vn[t], sqrt, err)
        && (forall j | t < j < |vn| :: vn[j].Current() == old(vn[j].Current()))
    {
      var i := 0;
      while i < |vn|
        invariant i <= |vn|
        invariant forall j | 0 <= j < i :: RefreshedFrom(old(vn[j].Current()), vn[j], sqrt, None)
        invariant forall j | i <= j < |vn| :: vn[j].Current() == old(vn[j].Current())
      {
        var node := vn[i];
        assert forall j | 0 <= j < |vn| && j != i :: vn[j] != node by {
          assert forall j | 0 <= j < |vn| && j != i :: vn[j].index != node.index;
        }
        var e := node.Update(sqrt);
        if e.Some? {
          err := e;
          assert RefreshedFrom(old(vn[i].Current()), vn[i], sqrt, err);
          return;
        }
        i := i + 1;
      }
      err := None;
    }

    /** A node that is not variable is not among the variable nodes. */
    lemma NonVariableNotNumbered()
      requires Valid()
      ensures forall k | k in nodes && !nodes[k].variable :: nodes[k] !in variableNodes
    {
    }
  }
}
