/** src/model/design_spec.rs: the Live2D parameters of the avatar model. Thirteen fixed parameters,
  * three per hair physics segment, two per cyber enhancement, one per cloth physics segment, and
  * three more while a dance is playing. The rest of the design record (colours, outfit, face,
  * expressions) does not affect the parameters and is not part of the model. */
module DesignSpec {
  import opened Wrappers
  import opened Strings
  import opened DanceRigging

  /** `PhysicsSegment`; the cloth physics segments are taken to be of the same kind. */
  datatype PhysicsSegment = PhysicsSegment(weight: real, damping: real, stiffness: real)

  datatype CyberEnhancement = CyberEnhancement(location: string, glowColor: string,
                                               animationParams: map<string, real>, powerState: bool)

  /** The parts of `FullModelSpec` the parameters are generated from. */
  datatype FullModelSpec = FullModelSpec(hairSegments: seq<PhysicsSegment>, clothSegments: seq<PhysicsSegment>,
                                         enhancements: seq<CyberEnhancement>, danceSystem: DanceRigSystem)

  /** The parameter families numbered by segment or enhancement. */
  datatype Family = HairFront | HairSide | HairBack | CyberGlow | CyberPulse | Cloth

  /** The parameters the model can have: a fixed one, a numbered one of a family, or a dance one. */
  datatype ParamId = Fixed(name: string) | Numbered(family: Family, index: nat) | Dance(name: string)

  function Prefix(f: Family): (p: string)
    ensures |p| >= 10 && (p[5] == 'H' || p[5] == 'C')
  {
    match f
    case HairFront => "ParamHairFront"
    case HairSide => "ParamHairSide"
    case HairBack => "ParamHairBack"
    case CyberGlow => "ParamCyberGlow"
    case CyberPulse => "ParamCyberPulse"
    case Cloth => "ParamCloth"
  }

  /** The key a parameter is stored under; a numbered one is `format!("{prefix}{i}")`. */
  function Name(p: ParamId): string {
    match p
    case Fixed(n) => n
    case Numbered(f, i) => Prefix(f) + NatToString(i)
    case Dance(n) => n
  }

  /** The names of the thirteen fixed parameters. */
  const FixedKeys: set<string> := {
    "ParamBodyAngleX", "ParamBodyAngleY", "ParamBodyAngleZ", "ParamBreath",
    "ParamAngleX", "ParamAngleY", "ParamAngleZ",
    "ParamEyeLOpen", "ParamEyeROpen", "ParamEyeBallX", "ParamEyeBallY",
    "ParamMouthForm", "ParamMouthOpenY"
  }

  const EyeOpenKeys: set<string> := {"ParamEyeLOpen", "ParamEyeROpen"}

  /** The names of the three dance parameters. */
  const DanceKeys: set<string> := {"ParamDanceEnergy", "ParamDanceFlow", "ParamDanceExpression"}

  /** A parameter the generator can produce. */
  predicate Known(p: ParamId) {
    match p
    case Fixed(n) => n in FixedKeys
    case Numbered(_, _) => true
    case Dance(n) => n in DanceKeys
  }

  /** The value a parameter starts at: eyes open at 1.0, cyber glows at 0.8, all else 0.0. */
  function StartValue(p: ParamId): real {
    match p
    case Fixed(n) => if n in EyeOpenKeys then 1.0 else 0.0
    case Numbered(f, _) => if f == CyberGlow then 0.8 else 0.0
    case Dance(_) => 0.0
  }

  /** The fixed parameters of the given names. */
  function FixedIdsOf(names: set<string>): set<ParamId> {
    set n | n in names :: Fixed(n)
  }

  /** The dance parameters of the given names. */
  function DanceIdsOf(names: set<string>): set<ParamId> {
    set n | n in names :: Dance(n)
  }

  const FixedIds: set<ParamId> := FixedIdsOf(FixedKeys)

  const DanceIds: set<ParamId> := DanceIdsOf(DanceKeys)

  /** The keys of a set of parameters. */
  function Names(ids: set<ParamId>): set<string> {
    set p | p in ids :: Name(p)
  }

  /** The parameters of a family for the first `n` indices. */
  function NumberedIds(f: Family, n: nat): set<ParamId> {
    set i | 0 <= i < n :: Numbered(f, i)
  }

  /** The parameters of a model with `hair` hair segments, `enhancements` cyber enhancements and
    * `cloth` cloth segments, before any dance parameters. */
  function BaseIds(hair: nat, enhancements: nat, cloth: nat): set<ParamId> {
    FixedIds + NumberedIds(HairFront, hair) + NumberedIds(HairSide, hair) + NumberedIds(HairBack, hair)
    + NumberedIds(CyberGlow, enhancements) + NumberedIds(CyberPulse, enhancements)
    + NumberedIds(Cloth, cloth)
  }

  /** The parameters of such a model, dancing or not. */
  function ParamIds(hair: nat, enhancements: nat, cloth: nat, dancing: bool): set<ParamId> {
    if dancing then BaseIds(hair, enhancements, cloth) + DanceIds else BaseIds(hair, enhancements, cloth)
  }

  /** A position where the prefixes of two different families differ. */
  function Apart(f: Family, g: Family): (d: nat)
    requires f != g
    ensures d < |Prefix(f)| && d < |Prefix(g)| && Prefix(f)[d] != Prefix(g)[d]
  {
    var hair := f in {HairFront, HairSide, HairBack};
    if hair != (g in {HairFront, HairSide, HairBack}) then 5
    else if hair then 9
    else if f == Cloth || g == Cloth then 6
    else 10
  }

  /** Two numbered keys are equal only for the same family and index. */
  lemma NumberedApart(f: Family, i: nat, g: Family, j: nat)
    ensures Name(Numbered(f, i)) == Name(Numbered(g, j)) ==> f == g && i == j
  {
    var a, b := Name(Numbered(f, i)), Name(Numbered(g, j));
    if f != g {
      var d := Apart(f, g);
      assert a[d] != b[d];
    } else if a == b {
      assert NatToString(i) == a[|Prefix(f)|..] == b[|Prefix(f)|..] == NatToString(j);
      NatToStringInjective(i, j);
    }
  }

  /** The fixed names have 'B', 'A', 'E' or 'M' as sixth character. */
  lemma FixedChars()
    ensures forall n :: n in FixedKeys ==> |n| > 5 && (n[5] == 'B' || n[5] == 'A' || n[5] == 'E' || n[5] == 'M')
  {
  }

  /** The dance names have 'D' as sixth character. */
  lemma DanceChars()
    ensures forall n :: n in DanceKeys ==> |n| > 5 && n[5] == 'D'
  {
  }

  /** Different known parameters are stored under different keys. */
  lemma NameInjective(p: ParamId, q: ParamId)
    requires Known(p) && Known(q)
    ensures Name(p) == Name(q) ==> p == q
  {
    FixedChars();
    DanceChars();
    if p.Numbered? && q.Numbered? {
      NumberedApart(p.family, p.index, q.family, q.index);
    } else if p.Numbered? || q.Numbered? {
      assert Name(p)[5] != Name(q)[5];
    }
  }

  /** `params` holds exactly the keys of `ids`, one per parameter, each at its starting value. */
  ghost predicate Holds(params: map<string, real>, ids: set<ParamId>) {
    params.Keys == Names(ids) && |params| == |ids|
    && forall p :: p in ids ==> Name(p) in params && params[Name(p)] == StartValue(p)
  }

  /** The keys of one more parameter. */
  lemma NamesAdd(ids: set<ParamId>, q: ParamId)
    ensures Names(ids + {q}) == Names(ids) + {Name(q)}
  {
  }

  /** Inserting a new parameter, under a key not yet present, at its starting value. */
  lemma Insert(params: map<string, real>, ids: set<ParamId>, q: ParamId)
    requires Holds(params, ids) && q !in ids && Name(q) !in params
    ensures Holds(params[Name(q) := StartValue(q)], ids + {q})
  {
    NamesAdd(ids, q);
  }

  /** How many parameters of a family a model has. */
  function Bound(f: Family, hair: nat, glow: nat, cloth: nat): nat {
    match f
    case HairFront => hair
    case HairSide => hair
    case HairBack => hair
    case CyberGlow => glow
    case CyberPulse => glow
    case Cloth => cloth
  }

  /** Without the dance, a model's parameters are fixed ones and numbered ones within bounds. */
  lemma InBase(p: ParamId, hair: nat, glow: nat, cloth: nat)
    requires p in BaseIds(hair, glow, cloth)
    ensures p.Fixed? ==> p.name in FixedKeys
    ensures p.Numbered? ==> p.index < Bound(p.family, hair, glow, cloth)
    ensures !p.Dance?
  {
  }

  /** A fixed key and a numbered key differ in their sixth character. */
  lemma FixedNotNumbered(n: string, f: Family, i: nat)
    requires n in FixedKeys
    ensures n != Name(Numbered(f, i))
  {
    FixedChars();
    var k := Name(Numbered(f, i));
    assert k[5] == Prefix(f)[5];
  }

  /** A dance key differs from a fixed or numbered key in its sixth character. */
  lemma DanceNotOther(n: string, p: ParamId)
    requires n in DanceKeys && (p.Numbered? || (p.Fixed? && p.name in FixedKeys))
    ensures n != Name(p)
  {
    DanceChars();
    if p.Numbered? {
      assert Name(p)[5] == Prefix(p.family)[5];
    } else {
      FixedChars();
    }
  }

  /** The key of the next numbered parameter of a family is not among the keys so far. */
  lemma FreshNumbered(f: Family, i: nat, hair: nat, glow: nat, cloth: nat)
    requires i == Bound(f, hair, glow, cloth)
    ensures Numbered(f, i) !in BaseIds(hair, glow, cloth)
    ensures Name(Numbered(f, i)) !in Names(BaseIds(hair, glow, cloth))
  {
    forall p | p in BaseIds(hair, glow, cloth)
      ensures p != Numbered(f, i) && Name(p) != Name(Numbered(f, i))
    {
      InBase(p, hair, glow, cloth);
      if p.Numbered? {
        NumberedApart(p.family, p.index, f, i);
      } else {
        FixedNotNumbered(p.name, f, i);
      }
    }
  }

  /** No dance key is among the fixed and numbered keys. */
  lemma FreshDance(hair: nat, glow: nat, cloth: nat)
    ensures BaseIds(hair, glow, cloth) !! DanceIds
    ensures Names(BaseIds(hair, glow, cloth)) !! DanceKeys
  {
    forall p, n | p in BaseIds(hair, glow, cloth) && n in DanceKeys
      ensures p != Dance(n) && Name(p) != n
    {
      InBase(p, hair, glow, cloth);
      DanceNotOther(n, p);
    }
  }

  /** Fixed parameters of the given names: the open-eye ones at 1.0, the rest at 0.0. */
  function FixedMap(names: set<string>): map<string, real> {
    map n | n in names :: if n in EyeOpenKeys then 1.0 else 0.0
  }

  /** Dance parameters of the given names, all at 0.0. */
  function DanceMap(names: set<string>): map<string, real> {
    map n | n in names :: 0.0
  }

  /** The fixed parameters as `generate_live2d_params` inserts them. */
  const FixedParams: map<string, real> := FixedMap(FixedKeys)

  /** The parameters `generate_dance_params` returns. */
  const DanceParams: map<string, real> := DanceMap(DanceKeys)

  /** There are thirteen fixed parameter names and three dance ones. */
  lemma KeyCounts()
    ensures |FixedKeys| == 13 && |DanceKeys| == 3
  {
  }

  /** Naming a set of strings as fixed parameters keeps their number. */
  lemma {:induction false} FixedImageSize(names: set<string>)
    ensures |FixedIdsOf(names)| == |names|
    decreases |names|
  {
    if names != {} {
      var x :| x in names;
      FixedImageSize(names - {x});
      assert FixedIdsOf(names) == FixedIdsOf(names - {x}) + {Fixed(x)};
    }
  }

  /** Naming a set of strings as dance parameters keeps their number. */
  lemma {:induction false} DanceImageSize(names: set<string>)
    ensures |DanceIdsOf(names)| == |names|
    decreases |names|
  {
    if names != {} {
      var x :| x in names;
      DanceImageSize(names - {x});
      assert DanceIdsOf(names) == DanceIdsOf(names - {x}) + {Dance(x)};
    }
  }

  /** Fixed parameters of any names, each at its starting value. */
  lemma FixedHold(names: set<string>)
    ensures Holds(FixedMap(names), FixedIdsOf(names))
  {
    FixedImageSize(names);
    forall k | k in Names(FixedIdsOf(names)) ensures k in names {
      var p :| p in FixedIdsOf(names) && Name(p) == k;
    }
    forall n | n in names ensures n in Names(FixedIdsOf(names)) {
      assert Fixed(n) in FixedIdsOf(names);
    }
    assert Names(FixedIdsOf(names)) == names == FixedMap(names).Keys;
    assert |FixedMap(names)| == |FixedMap(names).Keys|;
    forall p | p in FixedIdsOf(names) ensures Name(p) in FixedMap(names) && FixedMap(names)[Name(p)] == StartValue(p) {
      assert p.Fixed? && p.name in names;
    }
  }

  /** Dance parameters of any names, each at rest. */
  lemma DanceHold(names: set<string>)
    ensures Holds(DanceMap(names), DanceIdsOf(names))
  {
    DanceImageSize(names);
    forall k | k in Names(DanceIdsOf(names)) ensures k in names {
      var p :| p in DanceIdsOf(names) && Name(p) == k;
    }
    forall n | n in names ensures n in Names(DanceIdsOf(names)) {
      assert Dance(n) in DanceIdsOf(names);
    }
    assert Names(DanceIdsOf(names)) == names == DanceMap(names).Keys;
    assert |DanceMap(names)| == |DanceMap(names).Keys|;
    forall p | p in DanceIdsOf(names) ensures Name(p) in DanceMap(names) && DanceMap(names)[Name(p)] == StartValue(p) {
      assert p.Dance? && p.name in names;
    }
  }

  /** The thirteen fixed parameters, each at its starting value. */
  lemma FixedParamsHold()
    ensures Holds(FixedParams, FixedIds) && |FixedIds| == 13
  {
    KeyCounts();
    FixedImageSize(FixedKeys);
    FixedHold(FixedKeys);
  }

  /** The three dance parameters, each at rest. */
  lemma DanceParamsHold()
    ensures Holds(DanceParams, DanceIds) && |DanceIds| == 3
  {
    KeyCounts();
    DanceImageSize(DanceKeys);
    DanceHold(DanceKeys);
  }

  /** The keys of two sets of parameters together. */
  lemma NamesUnion(ids1: set<ParamId>, ids2: set<ParamId>)
    ensures Names(ids1 + ids2) == Names(ids1) + Names(ids2)
  {
  }

  /** Merging maps with disjoint keys adds their sizes. */
  lemma MergeSize(m1: map<string, real>, m2: map<string, real>)
    requires m1.Keys !! m2.Keys
    ensures (m1 + m2).Keys == m1.Keys + m2.Keys && |m1 + m2| == |m1| + |m2|
  {
    assert (m1 + m2).Keys == m1.Keys + m2.Keys;
    assert |m1 + m2| == |(m1 + m2).Keys| && |m1| == |m1.Keys| && |m2| == |m2.Keys|;
  }

  /** Merging two maps of different parameters under different keys. */
  lemma Merge(m1: map<string, real>, ids1: set<ParamId>, m2: map<string, real>, ids2: set<ParamId>)
    requires Holds(m1, ids1) && Holds(m2, ids2) && ids1 !! ids2 && m1.Keys !! m2.Keys
    ensures Holds(m1 + m2, ids1 + ids2)
  {
    NamesUnion(ids1, ids2);
    MergeSize(m1, m2);
    forall p | p in ids1 ensures (m1 + m2)[Name(p)] == StartValue(p) {
      assert Name(p) !in m2;
    }
  }

  /** `generate_dance_params`: the three dance parameters at rest while a dance is playing, none
    * otherwise. */
  function GenerateDanceParams(spec: FullModelSpec): (r: Option<map<string, real>>)
    reads spec.danceSystem
    ensures r.None? <==> spec.danceSystem.currentDance.None?
    ensures r.Some? ==> Holds(r.value, DanceIds)
  {
    if spec.danceSystem.currentDance.Some? then
      DanceParamsHold();
      Some(DanceParams)
    else None
  }

  /** `generate_live2d_params`: the keys are those of the fixed parameters, of three per hair
    * segment, two per enhancement and one per cloth segment, and of the dance parameters while
    * dancing; every key is distinct, so there are 13 + 3h + 2e + c of them, plus 3 while dancing;
    * each holds its starting value. */
  method GenerateLive2dParams(spec: FullModelSpec) returns (params: map<string, real>)
    ensures var ids := ParamIds(|spec.hairSegments|, |spec.enhancements|, |spec.clothSegments|,
                                spec.danceSystem.currentDance.Some?);
            params.Keys == Names(ids) && forall p :: p in ids ==> params[Name(p)] == StartValue(p)
    ensures |params| == 13 + 3 * |spec.hairSegments| + 2 * |spec.enhancements| + |spec.clothSegments|
                        + (if spec.danceSystem.currentDance.Some? then 3 else 0)
  {
    FixedParamsHold();
    params := FixedParams;
    params := InsertHairParams(params, |spec.hairSegments|);
    params := InsertCyberParams(params, |spec.hairSegments|, |spec.enhancements|);
    params := InsertClothParams(params, |spec.hairSegments|, |spec.enhancements|, |spec.clothSegments|);
    var dance := GenerateDanceParams(spec);
    if dance.Some? {
      DanceMerged(params, |spec.hairSegments|, |spec.enhancements|, |spec.clothSegments|);
      params := params + dance.value;
    }
  }

  /** The hair loop of `generate_live2d_params`: three parameters per segment, at rest. */
  method InsertHairParams(fixed: map<string, real>, hair: nat) returns (params: map<string, real>)
    requires Holds(fixed, BaseIds(0, 0, 0)) && |fixed| == 13
    ensures Holds(params, BaseIds(hair, 0, 0)) && |params| == 13 + 3 * hair
  {
    params := fixed;
    var i := 0;
    while i < hair
      invariant 0 <= i <= hair
      invariant Holds(params, BaseIds(i, 0, 0)) && |params| == 13 + 3 * i
    {
      HairInserted(params, i);
      params := params[Name(Numbered(HairFront, i)) := 0.0];
      params := params[Name(Numbered(HairSide, i)) := 0.0];
      params := params[Name(Numbered(HairBack, i)) := 0.0];
      i := i + 1;
    }
  }

  /** The enhancement loop of `generate_live2d_params`: a glow at 0.8 and a pulse at rest per
    * enhancement. */
  method InsertCyberParams(before: map<string, real>, hair: nat, enhancements: nat) returns (params: map<string, real>)
    requires Holds(before, BaseIds(hair, 0, 0)) && |before| == 13 + 3 * hair
    ensures Holds(params, BaseIds(hair, enhancements, 0)) && |params| == 13 + 3 * hair + 2 * enhancements
  {
    params := before;
    var i := 0;
    while i < enhancements
      invariant 0 <= i <= enhancements
      invariant Holds(params, BaseIds(hair, i, 0)) && |params| == 13 + 3 * hair + 2 * i
    {
      CyberInserted(params, hair, i);
      params := params[Name(Numbered(CyberGlow, i)) := 0.8];
      params := params[Name(Numbered(CyberPulse, i)) := 0.0];
      i := i + 1;
    }
  }

  /** The cloth loop of `generate_live2d_params`: one parameter per segment, at rest. */
  method InsertClothParams(before: map<string, real>, hair: nat, enhancements: nat, cloth: nat)
    returns (params: map<string, real>)
    requires Holds(before, BaseIds(hair, enhancements, 0)) && |before| == 13 + 3 * hair + 2 * enhancements
    ensures Holds(params, BaseIds(hair, enhancements, cloth))
    ensures |params| == 13 + 3 * hair + 2 * enhancements + cloth
  {
    params := before;
    var i := 0;
    while i < cloth
      invariant 0 <= i <= cloth
      invariant Holds(params, BaseIds(hair, enhancements, i))
      invariant |params| == 13 + 3 * hair + 2 * enhancements + i
    {
      ClothInserted(params, hair, enhancements, i);
      params := params[Name(Numbered(Cloth, i)) := 0.0];
      i := i + 1;
    }
  }

  /** The front and side parameters of the next hair segment, inserted at rest. */
  lemma HairFrontSideInserted(params: map<string, real>, h: nat)
    requires Holds(params, BaseIds(h, 0, 0))
    ensures var next := params[Name(Numbered(HairFront, h)) := 0.0][Name(Numbered(HairSide, h)) := 0.0];
            Holds(next, BaseIds(h, 0, 0) + {Numbered(HairFront, h)} + {Numbered(HairSide, h)})
            && |next| == |params| + 2
  {
    var ids := BaseIds(h, 0, 0);
    FreshNumbered(HairFront, h, h, 0, 0);
    FreshNumbered(HairSide, h, h, 0, 0);
    NumberedApart(HairFront, h, HairSide, h);
    Insert(params, ids, Numbered(HairFront, h));
    Insert(params[Name(Numbered(HairFront, h)) := 0.0], ids + {Numbered(HairFront, h)}, Numbered(HairSide, h));
  }

  /** The back parameter of the next hair segment is new after its front and side ones. */
  lemma HairBackFresh(h: nat)
    ensures var ids := BaseIds(h, 0, 0) + {Numbered(HairFront, h)} + {Numbered(HairSide, h)};
            Numbered(HairBack, h) !in ids && Name(Numbered(HairBack, h)) !in Names(ids)
  {
    FreshNumbered(HairBack, h, h, 0, 0);
    NumberedApart(HairFront, h, HairBack, h);
    NumberedApart(HairSide, h, HairBack, h);
    NamesAdd(BaseIds(h, 0, 0), Numbered(HairFront, h));
    NamesAdd(BaseIds(h, 0, 0) + {Numbered(HairFront, h)}, Numbered(HairSide, h));
  }

  /** The three parameters of the next hair segment, inserted at rest. */
  lemma HairInserted(params: map<string, real>, h: nat)
    requires Holds(params, BaseIds(h, 0, 0))
    ensures var next := params[Name(Numbered(HairFront, h)) := 0.0][Name(Numbered(HairSide, h)) := 0.0]
                              [Name(Numbered(HairBack, h)) := 0.0];
            Holds(next, BaseIds(h + 1, 0, 0)) && |next| == |params| + 3
  {
    HairFrontSideInserted(params, h);
    HairBackFresh(h);
    var m := params[Name(Numbered(HairFront, h)) := 0.0][Name(Numbered(HairSide, h)) := 0.0];
    Insert(m, BaseIds(h, 0, 0) + {Numbered(HairFront, h)} + {Numbered(HairSide, h)}, Numbered(HairBack, h));
    HairStep(h);
  }

  /** The glow and pulse parameters of the next enhancement, the glow at 0.8. */
  lemma CyberInserted(params: map<string, real>, h: nat, g: nat)
    requires Holds(params, BaseIds(h, g, 0))
    ensures var next := params[Name(Numbered(CyberGlow, g)) := 0.8][Name(Numbered(CyberPulse, g)) := 0.0];
            Holds(next, BaseIds(h, g + 1, 0)) && |next| == |params| + 2
  {
    var ids := BaseIds(h, g, 0);
    FreshNumbered(CyberGlow, g, h, g, 0);
    FreshNumbered(CyberPulse, g, h, g, 0);
    NumberedApart(CyberGlow, g, CyberPulse, g);
    Insert(params, ids, Numbered(CyberGlow, g));
    var m1, s1 := params[Name(Numbered(CyberGlow, g)) := 0.8], ids + {Numbered(CyberGlow, g)};
    Insert(m1, s1, Numbered(CyberPulse, g));
    CyberStep(h, g);
  }

  /** The parameter of the next cloth segment, inserted at rest. */
  lemma ClothInserted(params: map<string, real>, h: nat, e: nat, c: nat)
    requires Holds(params, BaseIds(h, e, c))
    ensures var next := params[Name(Numbered(Cloth, c)) := 0.0];
            Holds(next, BaseIds(h, e, c + 1)) && |next| == |params| + 1
  {
    FreshNumbered(Cloth, c, h, e, c);
    Insert(params, BaseIds(h, e, c), Numbered(Cloth, c));
    ClothStep(h, e, c);
  }

  /** The dance parameters, merged in at rest. */
  lemma DanceMerged(params: map<string, real>, h: nat, e: nat, c: nat)
    requires Holds(params, BaseIds(h, e, c))
    ensures Holds(params + DanceParams, ParamIds(h, e, c, true)) && |params + DanceParams| == |params| + 3
  {
    FreshDance(h, e, c);
    DanceParamsHold();
    Merge(params, BaseIds(h, e, c), DanceParams, DanceIds);
  }

  /** One more hair segment adds its three parameters. */
  lemma HairStep(h: nat)
    ensures BaseIds(h + 1, 0, 0)
            == BaseIds(h, 0, 0) + {Numbered(HairFront, h)} + {Numbered(HairSide, h)} + {Numbered(HairBack, h)}
  {
    assert NumberedIds(HairFront, h + 1) == NumberedIds(HairFront, h) + {Numbered(HairFront, h)};
    assert NumberedIds(HairSide, h + 1) == NumberedIds(HairSide, h) + {Numbered(HairSide, h)};
    assert NumberedIds(HairBack, h + 1) == NumberedIds(HairBack, h) + {Numbered(HairBack, h)};
  }

  /** One more enhancement adds its glow and pulse parameters. */
  lemma CyberStep(h: nat, g: nat)
    ensures BaseIds(h, g + 1, 0)
            == BaseIds(h, g, 0) + {Numbered(CyberGlow, g)} + {Numbered(CyberPulse, g)}
  {
    assert NumberedIds(CyberGlow, g + 1) == NumberedIds(CyberGlow, g) + {Numbered(CyberGlow, g)};
    assert NumberedIds(CyberPulse, g + 1) == NumberedIds(CyberPulse, g) + {Numbered(CyberPulse, g)};
  }

  /** One more cloth segment adds its parameter. */
  lemma ClothStep(h: nat, e: nat, c: nat)
    ensures BaseIds(h, e, c + 1) == BaseIds(h, e, c) + {Numbered(Cloth, c)}
  {
    assert NumberedIds(Cloth, c + 1) == NumberedIds(Cloth, c) + {Numbered(Cloth, c)};
  }

  /** The numbered keys are the family prefix followed by the decimal index. */
  lemma KeyExamples()
    ensures Name(Numbered(HairFront, 0)) == "ParamHairFront0"
    ensures Name(Numbered(Cloth, 12)) == "ParamCloth12"
  {
    assert NatToString(12) == "12" by {
      assert NatToString(1) == "1";
    }
  }

  /** A model with two hair segments, one enhancement and no cloth has 13 + 6 + 2 parameters,
    * and 3 more once "touch" is playing. */
  method DancingModelScenario(hair: seq<PhysicsSegment>, glow: CyberEnhancement)
    returns (still: nat, dancing: nat)
    requires |hair| == 2
    ensures still == 21 && dancing == 24
  {
    var rig := new DanceRigSystem();
    var spec := FullModelSpec(hair, [], [glow], rig);
    var params := GenerateLive2dParams(spec);
    still := |params|;
    InitialCounts();
    var _ := rig.ToggleDance("touch");
    params := GenerateLive2dParams(spec);
    dancing := |params|;
  }

  /** A fresh model starts with its eyes open and its first enhancement glowing at 0.8. */
  method StartValuesScenario(glow: CyberEnhancement) returns (eyeOpen: real, glowLevel: real)
    ensures eyeOpen == 1.0 && glowLevel == 0.8
  {
    var rig := new DanceRigSystem();
    var spec := FullModelSpec([], [], [glow], rig);
    var params := GenerateLive2dParams(spec);
    assert Fixed("ParamEyeLOpen") in FixedIds && Numbered(CyberGlow, 0) in NumberedIds(CyberGlow, 1);
    eyeOpen := params[Name(Fixed("ParamEyeLOpen"))];
    glowLevel := params[Name(Numbered(CyberGlow, 0))];
  }
}
