/** The airflow elements of src/airnet/afedat.py: one class per element
    kind, whose constructors only store their keyword arguments; the
    power-law law Afe_Plr.calculate; and the table object_lookup from type
    tags to classes. */
module Afedat {
  import opened Values

  /** The element classes Afe_Plr … Afe_Prv. */
  datatype ElementClass = AfePlr | AfeDwc | AfeQfr | AfeDor | AfeCfr | AfeFan | AfeCpf | AfeCkv | AfePrv

  /** An element object: the attributes its constructor stored. Afe_Fan
      accepts mf1 and pts but does not keep them. */
  datatype Element =
    | Plr(init: Number, lam: Number, turb: Number, expt: Number)
    | Dwc(length: Number, hdia: Number, area: Number, rough: Number, tdlc: Number,
          lflc: Number, ldlc: Number, linit: Number, ed: Number, ld: Number, f: Number)
    | Qfr(a: Number, b: Number)
    | Dor(init: Number, lam: Number, turb: Number, expt: Number, dtmin: Number,
          ht: Number, wd: Number, cd: Number)
    | Cfr(flow: Number)
    | Fan(init: Number, lam: Number, turb: Number, expt: Number, rdens: Number,
          fdf: Number, sop: Number, off: Number)
    | Cpf(upo: Number, prmin: Number, ftyp: Number)
    | Ckv(dp0: Number, coef: Number)
    | Prv(fpos: Number, cpos: Number, fneg: Number, cneg: Number)

  function ClassOf(e: Element): ElementClass {
    match e
    case Plr(_, _, _, _) => AfePlr
    case Dwc(_, _, _, _, _, _, _, _, _, _, _) => AfeDwc
    case Qfr(_, _) => AfeQfr
    case Dor(_, _, _, _, _, _, _, _) => AfeDor
    case Cfr(_) => AfeCfr
    case Fan(_, _, _, _, _, _, _, _) => AfeFan
    case Cpf(_, _, _) => AfeCpf
    case Ckv(_, _) => AfeCkv
    case Prv(_, _, _, _) => AfePrv
  }

  /** The numeric keyword parameters of each constructor. Afe_Fan also
      takes pts, which is not a number (see Construct). */
  function Params(cls: ElementClass): set<string> {
    match cls
    case AfePlr => {"init", "lam", "turb", "expt"}
    case AfeDwc => {"length", "hdia", "area", "rough", "tdlc", "lflc", "ldlc", "linit", "ed", "ld", "f"}
    case AfeQfr => {"a", "b"}
    case AfeDor => {"init", "lam", "turb", "expt", "dtmin", "ht", "wd", "cd"}
    case AfeCfr => {"flow"}
    case AfeFan => {"init", "lam", "turb", "expt", "rdens", "fdf", "sop", "off", "mf1"}
    case AfeCpf => {"upo", "prmin", "ftyp"}
    case AfeCkv => {"dp0", "coef"}
    case AfePrv => {"fpos", "cpos", "fneg", "cneg"}
  }

  /** The parameters an object keeps as attributes. */
  function Stored(cls: ElementClass): set<string> {
    if cls == AfeFan then Params(cls) - {"mf1"} else Params(cls)
  }

  /** Every default is 0.0 except the turbulent exponent expt, 0.5, which
      only Afe_Plr, Afe_Dor and Afe_Fan have. */
  function Default(name: string): Number {
    if name == "expt" then Float(0.5) else Float(0.0)
  }

  /** The value a parameter takes: the keyword argument if given, else the
      default. */
  function Arg(args: map<string, Number>, name: string): Number {
    if name in args then args[name] else Default(name)
  }

  /** The attribute called name of an element object; a name the object
      does not have gives 0.0 (Attrs only asks for stored names). */
  function Field(e: Element, name: string): Number {
    match e
    case Plr(init, lam, turb, expt) =>
      if name == "init" then init else if name == "lam" then lam
      else if name == "turb" then turb else if name == "expt" then expt else Float(0.0)
    case Dwc(length, hdia, area, rough, tdlc, lflc, ldlc, linit, ed, ld, f) =>
      if name == "length" then length else if name == "hdia" then hdia
      else if name == "area" then area else if name == "rough" then rough
      else if name == "tdlc" then tdlc else if name == "lflc" then lflc
      else if name == "ldlc" then ldlc else if name == "linit" then linit
      else if name == "ed" then ed else if name == "ld" then ld
      else if name == "f" then f else Float(0.0)
    case Qfr(a, b) =>
      if name == "a" then a else if name == "b" then b else Float(0.0)
    case Dor(init, lam, turb, expt, dtmin, ht, wd, cd) =>
      if name == "init" then init else if name == "lam" then lam
      else if name == "turb" then turb else if name == "expt" then expt
      else if name == "dtmin" then dtmin else if name == "ht" then ht
      else if name == "wd" then wd else if name == "cd" then cd else Float(0.0)
    case Cfr(flow) =>
      if name == "flow" then flow else Float(0.0)
    case Fan(init, lam, turb, expt, rdens, fdf, sop, off) =>
      if name == "init" then init else if name == "lam" then lam
      else if name == "turb" then turb else if name == "expt" then expt
      else if name == "rdens" then rdens else if name == "fdf" then fdf
      else if name == "sop" then sop else if name == "off" then off else Float(0.0)
    case Cpf(upo, prmin, ftyp) =>
      if name == "upo" then upo else if name == "prmin" then prmin
      else if name == "ftyp" then ftyp else Float(0.0)
    case Ckv(dp0, coef) =>
      if name == "dp0" then dp0 else if name == "coef" then coef else Float(0.0)
    case Prv(fpos, cpos, fneg, cneg) =>
      if name == "fpos" then fpos else if name == "cpos" then cpos
      else if name == "fneg" then fneg else if name == "cneg" then cneg else Float(0.0)
  }

  /** The attributes of an element object (its __dict__). */
  function Attrs(e: Element): (m: map<string, Number>)
    ensures m.Keys == Stored(ClassOf(e))
  {
    map name | name in Stored(ClassOf(e)) :: Field(e, name)
  }

  /** Whether cls(**args) accepts its keywords; pts says whether a pts
      keyword is passed as well. Only Afe_Fan has a pts parameter. */
  predicate Accepts(cls: ElementClass, args: map<string, Number>, pts: bool) {
    args.Keys <= Params(cls) && (pts ==> cls == AfeFan)
  }

  /** The object cls(**args) builds: every parameter gets its argument or
      its default. */
  function Make(cls: ElementClass, args: map<string, Number>): (e: Element)
    ensures ClassOf(e) == cls
  {
    match cls
    case AfePlr => Plr(Arg(args, "init"), Arg(args, "lam"), Arg(args, "turb"), Arg(args, "expt"))
    case AfeDwc => Dwc(Arg(args, "length"), Arg(args, "hdia"), Arg(args, "area"), Arg(args, "rough"), Arg(args, "tdlc"),
                       Arg(args, "lflc"), Arg(args, "ldlc"), Arg(args, "linit"), Arg(args, "ed"), Arg(args, "ld"), Arg(args, "f"))
    case AfeQfr => Qfr(Arg(args, "a"), Arg(args, "b"))
    case AfeDor => Dor(Arg(args, "init"), Arg(args, "lam"), Arg(args, "turb"), Arg(args, "expt"), Arg(args, "dtmin"),
                       Arg(args, "ht"), Arg(args, "wd"), Arg(args, "cd"))
    case AfeCfr => Cfr(Arg(args, "flow"))
    case AfeFan => Fan(Arg(args, "init"), Arg(args, "lam"), Arg(args, "turb"), Arg(args, "expt"), Arg(args, "rdens"),
                       Arg(args, "fdf"), Arg(args, "sop"), Arg(args, "off"))
    case AfeCpf => Cpf(Arg(args, "upo"), Arg(args, "prmin"), Arg(args, "ftyp"))
    case AfeCkv => Ckv(Arg(args, "dp0"), Arg(args, "coef"))
    case AfePrv => Prv(Arg(args, "fpos"), Arg(args, "cpos"), Arg(args, "fneg"), Arg(args, "cneg"))
  }

  /** cls(**args): Python raises TypeError for a keyword the constructor
      does not take. */
  function Construct(cls: ElementClass, args: map<string, Number>, pts: bool): (r: Result<Element>)
    ensures r.Ok? <==> Accepts(cls, args, pts)
    ensures r.Err? ==> r.error == TypeError
    ensures r.Ok? ==> ClassOf(r.value) == cls
  {
    if Accepts(cls, args, pts) then Ok(Make(cls, args)) else Err(TypeError)
  }

  /** A constructed object stores each argument unchanged and the default
      for each parameter left out. */
  lemma ConstructStores(cls: ElementClass, args: map<string, Number>, pts: bool)
    requires Construct(cls, args, pts).Ok?
    ensures var m := Attrs(Construct(cls, args, pts).value);
      m.Keys == Stored(cls) && forall name | name in m :: m[name] == Arg(args, name)
  {
    forall name | name in Stored(cls)
      ensures Field(Make(cls, args), name) == Arg(args, name)
    {
      FieldOfMake(cls, args, name);
    }
  }

  lemma FieldOfMake(cls: ElementClass, args: map<string, Number>, name: string)
    requires name in Stored(cls)
    ensures Field(Make(cls, args), name) == Arg(args, name)
  {
    match cls
    case AfePlr =>
    case AfeDwc =>
    case AfeQfr =>
    case AfeDor =>
    case AfeCfr =>
    case AfeFan =>
    case AfeCpf =>
    case AfeCkv =>
    case AfePrv =>
  }

  /** Constructing from an object's own attributes gives an object with the
      same attributes back. */
  lemma ConstructFromAttrs(e: Element)
    ensures var r := Construct(ClassOf(e), Attrs(e), false);
      r.Ok? && ClassOf(r.value) == ClassOf(e) && Attrs(r.value) == Attrs(e)
  {
    var m := Attrs(e);
    assert Accepts(ClassOf(e), m, false);
    ConstructStores(ClassOf(e), m, false);
  }

  /** The tag each class is registered under in object_lookup. */
  function Tag(cls: ElementClass): string {
    match cls
    case AfePlr => "plr" case AfeDwc => "dwc" case AfeQfr => "qfr"
    case AfeDor => "dor" case AfeCfr => "cfr" case AfeFan => "fan"
    case AfeCpf => "cpf" case AfeCkv => "ckv" case AfePrv => "prv"
  }

  /** object_lookup: the default element table, keyed by strings. */
  const ObjectLookup: map<Key, ElementClass> :=
    map[StrKey("plr") := AfePlr, StrKey("dwc") := AfeDwc, StrKey("qfr") := AfeQfr,
        StrKey("dor") := AfeDor, StrKey("cfr") := AfeCfr, StrKey("fan") := AfeFan,
        StrKey("cpf") := AfeCpf, StrKey("ckv") := AfeCkv, StrKey("prv") := AfePrv]

  /** object_lookup maps exactly the nine tags, each to its own class, and
      no ElementType member is one of its keys. */
  lemma ObjectLookupExact()
    ensures forall cls :: StrKey(Tag(cls)) in ObjectLookup && ObjectLookup[StrKey(Tag(cls))] == cls
    ensures forall k | k in ObjectLookup :: k.StrKey? && k == StrKey(Tag(ObjectLookup[k]))
    ensures forall c1, c2 | Tag(c1) == Tag(c2) :: c1 == c2
  {
  }

  /** The properties calculate reads from an end node of a link. sqrtd is
      None when the node has no attribute of that name. */
  datatype Endpoint = Endpoint(dvisc: real, sqrtd: Option<real>)

  /** The tuple calculate returns: flow, a second flow, derivative, a
      second derivative. */
  datatype FlowResult = FlowResult(flow: real, flow2: real, deriv: real, deriv2: real)

  /** A number operand of an arithmetic operator: the token a noop reader
      left in place makes Python raise TypeError. */
  function Operand(n: Number): (r: Result<real>)
    ensures r.Ok? <==> n.Float?
    ensures r.Ok? ==> r.value == n.value
    ensures r.Err? ==> r.error == TypeError
  {
    match n
    case Float(x) => Ok(x)
    case Raw(_) => Err(TypeError)
  }

  /** An attribute that may be missing: AttributeError when it is. */
  function Attribute(v: Option<real>): (r: Result<real>)
    ensures r.Ok? <==> v.Some?
    ensures r.Ok? ==> r.value == v.value
    ensures r.Err? ==> r.error == AttributeError
  {
    match v
    case Some(x) => Ok(x)
    case None => Err(AttributeError)
  }

  /** Whether calculate returns rather than raises. */
  predicate Computable(e: Element, n0: Endpoint, n1: Endpoint, pdrop: real) {
    && e.Plr? && e.lam.Float?
    && (pdrop > 0.0 ==> n0.sqrtd.Some? && e.turb.Float? && e.expt.Float?)
    && (pdrop < 0.0 ==> e.turb.Float? && n1.sqrtd.Some? && e.expt.Float?)
  }

  /** The branch of calculate for pdrop > 0: laminar and turbulent flow at
      the conditions of node0, the smaller one wins and a tie goes to
      laminar. */
  function Forward(e: Element, n0: Endpoint, pdrop: real, pow: (real, real) -> real): (r: Result<FlowResult>)
    requires e.Plr? && pdrop > 0.0
    ensures r.Ok? <==> e.lam.Float? && n0.sqrtd.Some? && e.turb.Float? && e.expt.Float?
    ensures r.Err? ==> (r.error == AttributeError <==> e.lam.Float? && n0.sqrtd.None?)
    ensures r.Err? ==> r.error == TypeError || r.error == AttributeError
    ensures r.Ok? ==> r.value.flow2 == 0.0 && r.value.deriv2 == 0.0
    ensures r.Ok? ==>
      var fl := e.lam.value * n0.dvisc * pdrop;
      var ft := e.turb.value * n0.sqrtd.value * pow(pdrop, e.expt.value);
      && (r.value.flow == fl || r.value.flow == ft)
      && r.value.flow <= fl && r.value.flow <= ft
      && (r.value.flow == fl <==> fl <= ft)
      && (fl <= ft ==> r.value.deriv == e.lam.value * n0.dvisc)
      && (fl > ft ==> r.value.deriv == ft * e.expt.value / pdrop)
  {
    var lam :- Operand(e.lam);
    var cdm := lam * n0.dvisc;
    var fl := cdm * pdrop;
    var sqrtd :- Attribute(n0.sqrtd);
    var turb :- Operand(e.turb);
    var expt :- Operand(e.expt);
    var ft := turb * sqrtd * pow(pdrop, expt);
    if fl <= ft then Ok(FlowResult(fl, 0.0, cdm, 0.0))
    else Ok(FlowResult(ft, 0.0, ft * expt / pdrop, 0.0))
  }

  /** The branch of calculate for pdrop < 0: the flows at the conditions of
      node1, the larger one (the smaller in magnitude) wins and a tie goes
      to laminar. turb is negated before node1's sqrtd is read. */
  function Backward(e: Element, n1: Endpoint, pdrop: real, pow: (real, real) -> real): (r: Result<FlowResult>)
    requires e.Plr? && pdrop < 0.0
    ensures r.Ok? <==> e.lam.Float? && e.turb.Float? && n1.sqrtd.Some? && e.expt.Float?
    ensures r.Err? ==> (r.error == AttributeError <==> e.lam.Float? && e.turb.Float? && n1.sqrtd.None?)
    ensures r.Err? ==> r.error == TypeError || r.error == AttributeError
    ensures r.Ok? ==> r.value.flow2 == 0.0 && r.value.deriv2 == 0.0
    ensures r.Ok? ==>
      var fl := e.lam.value * n1.dvisc * pdrop;
      var ft := -e.turb.value * n1.sqrtd.value * pow(-pdrop, e.expt.value);
      && (r.value.flow == fl || r.value.flow == ft)
      && r.value.flow >= fl && r.value.flow >= ft
      && (r.value.flow == fl <==> fl >= ft)
      && (fl >= ft ==> r.value.deriv == e.lam.value * n1.dvisc)
      && (fl < ft ==> r.value.deriv == ft * e.expt.value / pdrop)
  {
    var lam :- Operand(e.lam);
    var cdm := lam * n1.dvisc;
    var fl := cdm * pdrop;
    var turb :- Operand(e.turb);
    var sqrtd :- Attribute(n1.sqrtd);
    var expt :- Operand(e.expt);
    var ft := -turb * sqrtd * pow(-pdrop, expt);
    if fl >= ft then Ok(FlowResult(fl, 0.0, cdm, 0.0))
    else Ok(FlowResult(ft, 0.0, ft * expt / pdrop, 0.0))
  }

  /** Afe_Plr.calculate(link, pdrop) for a link from n0 to n1, with pow for
      math.pow. Only Afe_Plr has the method: on any other element Python
      raises AttributeError. Operands are evaluated in Python's order, so the
      first one that is missing or not a number decides the error. With no
      pressure drop the flow is zero and the derivative averages the two
      nodes' laminar terms; only lam is read. */
  function Calculate(e: Element, n0: Endpoint, n1: Endpoint, pdrop: real, pow: (real, real) -> real): (r: Result<FlowResult>)
    ensures r.Ok? <==> Computable(e, n0, n1, pdrop)
    ensures r.Err? ==> r.error == TypeError || r.error == AttributeError
    ensures r.Err? ==> (r.error == AttributeError <==>
      || !e.Plr?
      || (e.lam.Float? && pdrop > 0.0 && n0.sqrtd.None?)
      || (e.lam.Float? && pdrop < 0.0 && e.turb.Float? && n1.sqrtd.None?))
    ensures r.Ok? ==> r.value.flow2 == 0.0 && r.value.deriv2 == 0.0
    ensures r.Ok? && pdrop == 0.0 ==>
      r.value.flow == 0.0 && r.value.deriv == 0.5 * e.lam.value * (n0.dvisc + n1.dvisc)
  {
    if !e.Plr? then Err(AttributeError)
    else if pdrop > 0.0 then Forward(e, n0, pdrop, pow)
    else if pdrop < 0.0 then Backward(e, n1, pdrop, pow)
    else
      var lam :- Operand(e.lam);
      var cdm := 0.5 * lam * (n0.dvisc + n1.dvisc);
      Ok(FlowResult(0.0, 0.0, cdm, 0.0))
  }

  /** For a positive pressure drop only the upstream node0 matters, for a
      negative one only node1. */
  lemma CalculateReadsUpstream(e: Element, n0: Endpoint, n1: Endpoint, m: Endpoint, pdrop: real, pow: (real, real) -> real)
    ensures pdrop > 0.0 ==> Calculate(e, n0, n1, pdrop, pow) == Calculate(e, n0, m, pdrop, pow)
    ensures pdrop < 0.0 ==> Calculate(e, n0, n1, pdrop, pow) == Calculate(e, m, n1, pdrop, pow)
  {
  }

  lemma MulNonNegative(x: real, y: real)
    requires x >= 0.0 && y >= 0.0
    ensures x * y >= 0.0
  {
  }

  /** With non-negative coefficients and node properties and a pow that is
      non-negative on non-negative arguments, the flow has the sign of the
      pressure drop. */
  lemma CalculateFlowSign(e: Element, n0: Endpoint, n1: Endpoint, pdrop: real, pow: (real, real) -> real)
    requires Calculate(e, n0, n1, pdrop, pow).Ok?
    requires e.lam.value >= 0.0 && n0.dvisc >= 0.0 && n1.dvisc >= 0.0
    requires pdrop != 0.0 ==> e.turb.value >= 0.0
    requires n0.sqrtd.Some? ==> n0.sqrtd.value >= 0.0
    requires n1.sqrtd.Some? ==> n1.sqrtd.value >= 0.0
    requires forall x, y :: x >= 0.0 ==> pow(x, y) >= 0.0
    ensures pdrop > 0.0 ==> Calculate(e, n0, n1, pdrop, pow).value.flow >= 0.0
    ensures pdrop < 0.0 ==> Calculate(e, n0, n1, pdrop, pow).value.flow <= 0.0
  {
    var lam := e.lam.value;
    if pdrop > 0.0 {
      var sq, turb, expt := n0.sqrtd.value, e.turb.value, e.expt.value;
      MulNonNegative(lam, n0.dvisc);
      MulNonNegative(lam * n0.dvisc, pdrop);
      MulNonNegative(turb, sq);
      MulNonNegative(turb * sq, pow(pdrop, expt));
    } else if pdrop < 0.0 {
      var sq, turb, expt := n1.sqrtd.value, e.turb.value, e.expt.value;
      MulNonNegative(lam, n1.dvisc);
      MulNonNegative(lam * n1.dvisc, -pdrop);
      assert lam * n1.dvisc * pdrop == -(lam * n1.dvisc * -pdrop);
      MulNonNegative(turb, sq);
      MulNonNegative(turb * sq, pow(-pdrop, expt));
      assert -turb * sq * pow(-pdrop, expt) == -(turb * sq * pow(-pdrop, expt));
    }
  }
}
