/** `Agent.to_envelope` / `Agent.from_envelope` on whole trees of delegated agents and
    handoffs.

    Opaque values (settings, refusal policies, metadata values) are strings here. */
module AgentEnvelopes {
  import opened Common

  // --------------------------------------------------------------------------- providers

  datatype ModelRole = CLASSIFY | RESPOND | PLAN | RESEARCH | EVALUATE {
    function Value(): string {
      match this
      case CLASSIFY => "classify"
      case RESPOND => "respond"
      case PLAN => "plan"
      case RESEARCH => "research"
      case EVALUATE => "evaluate"
    }
  }

  /** `ModelRole(text)`; None is the ValueError. */
  function ParseRole(text: string): (r: Option<ModelRole>)
    ensures r.Some? ==> r.value.Value() == text
    ensures r.None? ==> forall role: ModelRole :: role.Value() != text
    ensures r.Some? <==> text in ["classify", "respond", "plan", "research", "evaluate"]
  {
    if text == "classify" then Some(CLASSIFY)
    else if text == "respond" then Some(RESPOND)
    else if text == "plan" then Some(ModelRole.PLAN)
    else if text == "research" then Some(ModelRole.RESEARCH)
    else if text == "evaluate" then Some(EVALUATE)
    else None
  }

  lemma RolesParse(r: ModelRole)
    ensures ParseRole(r.Value()) == Some(r)
  {
    match r
    case CLASSIFY => case RESPOND => case PLAN => case RESEARCH => case EVALUATE =>
  }

  datatype ProviderConfig = ProviderConfig(fallback: string, roleModels: map<ModelRole, string>)

  /** An agent's provider; `Foreign` is any object that is projected to a dictionary. */
  datatype Provider = Config(config: ProviderConfig) | Foreign(projection: Payload)

  /** The dictionary in the envelope: `default`, `role_models`, and anything else. */
  datatype Payload = Payload(fallback: Option<string>, roleModels: Option<map<string, string>>,
                             extras: map<string, string>)

  const DEFAULT_MODEL: string := "anthropic:claude-haiku-4-5"

  function RoleNames(roleModels: map<ModelRole, string>): map<string, string> {
    map text | text in (set r | r in roleModels :: r.Value()) && ParseRole(text).Some?
               && ParseRole(text).value in roleModels :: roleModels[ParseRole(text).value]
  }

  function ProjectProvider(p: Provider): Payload {
    match p
    case Config(c) => Payload(Some(c.fallback), Some(RoleNames(c.roleModels)), map[])
    case Foreign(projection) => projection
  }

  predicate RolesKnown(p: Payload) {
    p.roleModels.Some? ==> forall text :: text in p.roleModels.value ==> ParseRole(text).Some?
  }

  const ROLES := {CLASSIFY, RESPOND, ModelRole.PLAN, ModelRole.RESEARCH, EVALUATE}

  lemma AllRolesListed(r: ModelRole)
    ensures r in ROLES
  {
    match r
    case CLASSIFY => case RESPOND => case PLAN => case RESEARCH => case EVALUATE =>
  }

  function ParsedRoles(names: map<string, string>): map<ModelRole, string> {
    map r: ModelRole | r in ROLES && r.Value() in names
      :: names[r.Value()]
  }

  /** Fails with an unknown role name, and only then. */
  function RebuildProvider(p: Payload): Option<ProviderConfig> {
    if !RolesKnown(p) then None
    else Some(ProviderConfig(if p.fallback.Some? then p.fallback.value else DEFAULT_MODEL,
                             if p.roleModels.Some? then ParsedRoles(p.roleModels.value) else map[]))
  }

  /** The payloads a `ProviderConfig` projects to. */
  predicate CanonicalPayload(p: Payload) {
    p.fallback.Some? && p.roleModels.Some? && p.extras == map[] && RolesKnown(p)
  }

  lemma RoleNamesKeep(m: map<ModelRole, string>, r: ModelRole)
    ensures r in m <==> r.Value() in RoleNames(m)
    ensures r in m ==> RoleNames(m)[r.Value()] == m[r]
  {
    RolesParse(r);
  }

  lemma ConfigSurvives(c: ProviderConfig)
    ensures RebuildProvider(ProjectProvider(Config(c))) == Some(c)
    ensures CanonicalPayload(ProjectProvider(Config(c)))
  {
    var back := ParsedRoles(RoleNames(c.roleModels));
    forall r: ModelRole ensures r in back <==> r in c.roleModels {
      RoleNamesKeep(c.roleModels, r);
      AllRolesListed(r);
    }
    forall r | r in c.roleModels ensures back[r] == c.roleModels[r] {
      RoleNamesKeep(c.roleModels, r);
    }
    assert back == c.roleModels;
  }

  /** What a stored provider is rebuilt as: its default, or the one model everybody falls back to;
      and the models of its roles, under the roles' own names. */
  lemma RebuiltProvider(p: Payload)
    ensures RebuildProvider(p).Some? ==>
              var c := RebuildProvider(p).value;
              && c.fallback == (if p.fallback.Some? then p.fallback.value else "anthropic:claude-haiku-4-5")
              && forall r: ModelRole ::
                   && (r in c.roleModels <==> p.roleModels.Some? && r.Value() in p.roleModels.value)
                   && (r in c.roleModels ==> c.roleModels[r] == p.roleModels.value[r.Value()])
  {
    if RebuildProvider(p).Some? && p.roleModels.Some? {
      var c, names := RebuildProvider(p).value, p.roleModels.value;
      forall r: ModelRole ensures r in c.roleModels <==> r.Value() in names { AllRolesListed(r); }
    }
  }

  lemma PayloadSurvivesExactly(p: Payload)
    ensures RebuildProvider(p).Some? && ProjectProvider(Config(RebuildProvider(p).value)) == p
            <==> CanonicalPayload(p)
  {
    if CanonicalPayload(p) {
      var names := p.roleModels.value;
      var back := RoleNames(ParsedRoles(names));
      forall text ensures text in names <==> text in back {
        if text in names {
          var r := ParseRole(text).value;
          AllRolesListed(r);
          assert r in ParsedRoles(names);
          RolesParse(r);
        }
      }
      forall text | text in names ensures back[text] == names[text] {
        RolesParse(ParseRole(text).value);
      }
      assert back == names;
    }
  }

  // ------------------------------------------------------------------------------- trees

  datatype Pattern = CHAT | PLAN | RESEARCH

  /** Fields copied in both directions. */
  datatype Core = Core(instructions: string, model: string, pattern: Pattern, tools: seq<string>,
                       maxTools: Option<int>, maxReactIterations: Option<int>,
                       maxPlanSteps: Option<int>, ragTopK: Option<int>, ragMaxRetries: Option<int>,
                       maxDelegationDepth: int, name: Option<string>,
                       metadata: seq<(string, string)>)

  datatype Agent = Agent(core: Core, provider: Option<Provider>, settings: Option<string>,
                         refusalPolicy: Option<string>, delegated: seq<Entry>, handoffs: seq<Entry>)

  /** What the tuples may hold: an agent, an object with an agent in `.agent`, or neither. */
  datatype Entry = Direct(agent: Agent) | Wrapped(agent: Agent) | Other

  datatype Envelope = Envelope(core: Core, provider: Option<Payload>, overrides: map<string, string>,
                               delegated: seq<Envelope>, handoffs: seq<Envelope>,
                               recipeId: Option<string>)

  function ToEnvelope(a: Agent): Envelope
    decreases a, 1
  {
    Envelope(a.core, if a.provider.None? then None else Some(ProjectProvider(a.provider.value)),
             map[], ToEnvelopes(a.delegated, true), ToEnvelopes(a.handoffs, false), None)
  }

  /** Wrappers are looked into among delegated agents only. */
  function Kept(e: Entry, unwrap: bool): bool { e.Direct? || (e.Wrapped? && unwrap) }

  /** The agent an entry holds, a part of it. */
  function Inner(e: Entry): (a: Agent)
    requires !e.Other?
    ensures a < e
  {
    match e
    case Direct(a) => a
    case Wrapped(a) => a
  }

  function ToEnvelopes(es: seq<Entry>, unwrap: bool): seq<Envelope>
    decreases es, 0
  {
    if es == [] then []
    else
      var init, last := es[..|es| - 1], es[|es| - 1];
      if Kept(last, unwrap) then ToEnvelopes(init, unwrap) + [ToEnvelope(Inner(last))]
      else ToEnvelopes(init, unwrap)
  }

  /** Rebuilding an agent; None is the ValueError of an unknown role. */
  function FromEnvelope(e: Envelope): Option<Agent>
    decreases e, 1
  {
    var provider := if e.provider.None? then None else RebuildProvider(e.provider.value);
    var delegated, handoffs := FromEnvelopes(e.delegated), FromEnvelopes(e.handoffs);
    if (e.provider.Some? && provider.None?) || delegated.None? || handoffs.None? then None
    else Some(Agent(e.core, if provider.None? then None else Some(Config(provider.value)),
                    None, None, delegated.value, handoffs.value))
  }

  function FromEnvelopes(es: seq<Envelope>): Option<seq<Entry>>
    decreases es, 0
  {
    if es == [] then Some([])
    else
      var init, last := FromEnvelopes(es[..|es| - 1]), FromEnvelope(es[|es| - 1]);
      if init.None? || last.None? then None else Some(init.value + [Direct(last.value)])
  }

  // ------------------------------------------------------------- what an envelope holds

  function IsAgent(wrapped: bool): Entry -> bool { (e: Entry) => e.Direct? || (wrapped && e.Wrapped?) }

  /** The envelopes, in order, of exactly the entries that are agents, or hold one. */
  ghost predicate EnvelopesOf(es: seq<Entry>, wrapped: bool, out: seq<Envelope>) {
    exists agents: seq<Entry> ::
      && Picks(agents, es, IsAgent(wrapped)) && |out| == |agents|
      && forall k :: 0 <= k < |agents| ==> !agents[k].Other? && out[k] == ToEnvelope(agents[k].agent)
  }

  lemma {:induction false} ToEnvelopesPick(es: seq<Entry>, unwrap: bool) returns (agents: seq<Entry>)
    ensures Picks(agents, es, IsAgent(unwrap)) && |ToEnvelopes(es, unwrap)| == |agents|
    ensures forall k :: 0 <= k < |agents| ==>
              !agents[k].Other? && ToEnvelopes(es, unwrap)[k] == ToEnvelope(agents[k].agent)
    decreases |es|
  {
    if es == [] {
      agents := [];
      PicksNothing(IsAgent(unwrap));
    } else {
      var last := es[|es| - 1];
      var before := ToEnvelopesPick(Butlast(es), unwrap);
      PicksLast(before, es, IsAgent(unwrap));
      agents := before + (if IsAgent(unwrap)(last) then [last] else []);
    }
  }

  /** An envelope carries the agent's own fields, no overrides and no recipe, what its provider
      projects to, and the envelopes of its delegated agents, wrapped or not, and of those of its
      handoffs that are agents, each list in order and nothing but that. */
  lemma EnvelopeHolds(a: Agent)
    ensures var e := ToEnvelope(a);
            && e.core == a.core && e.overrides == map[] && e.recipeId.None?
            && (e.provider.Some? <==> a.provider.Some?)
            && (a.provider.Some? && a.provider.value.Foreign? ==> e.provider.value == a.provider.value.projection)
            && EnvelopesOf(a.delegated, true, e.delegated) && EnvelopesOf(a.handoffs, false, e.handoffs)
  {
    var delegated := ToEnvelopesPick(a.delegated, true);
    var handoffs := ToEnvelopesPick(a.handoffs, false);
  }

  lemma {:induction false} FromEnvelopesAll(es: seq<Envelope>)
    ensures FromEnvelopes(es).Some? <==> forall k :: 0 <= k < |es| ==> FromEnvelope(es[k]).Some?
    ensures FromEnvelopes(es).Some? ==> |FromEnvelopes(es).value| == |es|
    ensures FromEnvelopes(es).Some? ==>
              forall k :: 0 <= k < |es| ==> FromEnvelopes(es).value[k] == Direct(FromEnvelope(es[k]).value)
    decreases |es|
  {
    if es != [] {
      FromEnvelopesAll(Butlast(es));
      assert es == Butlast(es) + [es[|es| - 1]];
    }
  }

  /** Plain agents, each the one rebuilt from the envelope in its place. */
  predicate RebuiltFrom(es: seq<Envelope>, entries: seq<Entry>) {
    && |entries| == |es|
    && forall k :: 0 <= k < |es| ==>
         FromEnvelope(es[k]).Some? && entries[k] == Direct(FromEnvelope(es[k]).value)
  }

  /** A rebuilt agent has the envelope's fields, no settings and no refusal policy, and in the
      place of every nested envelope the agent rebuilt from it, never a wrapper. */
  lemma RebuiltHolds(e: Envelope)
    requires FromEnvelope(e).Some?
    ensures var a := FromEnvelope(e).value;
            && a.core == e.core && a.settings.None? && a.refusalPolicy.None?
            && (if e.provider.None? then a.provider.None?
                else RebuildProvider(e.provider.value).Some?
                     && a.provider == Some(Config(RebuildProvider(e.provider.value).value)))
            && RebuiltFrom(e.delegated, a.delegated) && RebuiltFrom(e.handoffs, a.handoffs)
  {
    FromEnvelopesAll(e.delegated);
    FromEnvelopesAll(e.handoffs);
  }

  // ------------------------------------------------------------------------ normal forms

  /** The agent with everything the envelope cannot carry removed, at every depth. */
  function Normal(a: Agent): Agent
    decreases a, 1
  {
    Agent(a.core, NormalProvider(a.provider), None, None,
          Normals(a.delegated, true), Normals(a.handoffs, false))
  }

  function NormalProvider(p: Option<Provider>): Option<Provider> {
    if p.None? || p.value.Config? then p
    else
      var c := RebuildProvider(p.value.projection);
      if c.Some? then Some(Config(c.value)) else None
  }

  function Normals(es: seq<Entry>, unwrap: bool): seq<Entry>
    decreases es, 0
  {
    if es == [] then []
    else
      var init, last := es[..|es| - 1], es[|es| - 1];
      if Kept(last, unwrap) then Normals(init, unwrap) + [Direct(Normal(Inner(last)))]
      else Normals(init, unwrap)
  }

  /** No enveloped node has a foreign provider with a role name that does not exist. */
  predicate Rebuildable(a: Agent)
    decreases a, 1
  {
    && (a.provider.Some? ==> RebuildProvider(ProjectProvider(a.provider.value)).Some?)
    && AllRebuildable(a.delegated, true) && AllRebuildable(a.handoffs, false)
  }

  predicate AllRebuildable(es: seq<Entry>, unwrap: bool)
    decreases es, 0
  {
    es == [] ||
    (AllRebuildable(es[..|es| - 1], unwrap)
     && (Kept(es[|es| - 1], unwrap) ==> Rebuildable(Inner(es[|es| - 1]))))
  }

  /** The providers are of the declared type at every enveloped node. */
  predicate Typed(a: Agent)
    decreases a, 1
  {
    (a.provider.Some? ==> a.provider.value.Config?) && AllTyped(a.delegated, true) && AllTyped(a.handoffs, false)
  }

  predicate AllTyped(es: seq<Entry>, unwrap: bool)
    decreases es, 0
  {
    es == [] ||
    (AllTyped(es[..|es| - 1], unwrap) && (Kept(es[|es| - 1], unwrap) ==> Typed(Inner(es[|es| - 1]))))
  }

  // ------------------------------------------------------------------- agent round trip

  /** On trees of any depth the round trip is the normal form; it fails exactly when some
      enveloped node has a foreign provider with an unknown role. */
  lemma {:induction false} RoundTripIsNormal(a: Agent)
    ensures FromEnvelope(ToEnvelope(a)) == if Rebuildable(a) then Some(Normal(a)) else None
    decreases a, 1
  {
    RoundTripsAreNormal(a.delegated, true);
    RoundTripsAreNormal(a.handoffs, false);
    if a.provider.Some? && a.provider.value.Config? { ConfigSurvives(a.provider.value.config); }
  }

  lemma {:induction false} RoundTripsAreNormal(es: seq<Entry>, unwrap: bool)
    ensures FromEnvelopes(ToEnvelopes(es, unwrap))
            == if AllRebuildable(es, unwrap) then Some(Normals(es, unwrap)) else None
    decreases es, 0
  {
    if es != [] {
      var init, last := es[..|es| - 1], es[|es| - 1];
      RoundTripsAreNormal(init, unwrap);
      if Kept(last, unwrap) {
        RoundTripIsNormal(Inner(last));
        var out := ToEnvelopes(es, unwrap);
        assert out[..|out| - 1] == ToEnvelopes(init, unwrap);
      }
    }
  }

  lemma {:induction false} TypedIsRebuildable(a: Agent)
    requires Typed(a)
    ensures Rebuildable(a)
    decreases a, 1
  {
    AllTypedRebuildable(a.delegated, true);
    AllTypedRebuildable(a.handoffs, false);
    if a.provider.Some? { ConfigSurvives(a.provider.value.config); }
  }

  lemma {:induction false} AllTypedRebuildable(es: seq<Entry>, unwrap: bool)
    requires AllTyped(es, unwrap)
    ensures AllRebuildable(es, unwrap)
    decreases es, 0
  {
    if es != [] {
      AllTypedRebuildable(es[..|es| - 1], unwrap);
      if Kept(es[|es| - 1], unwrap) { TypedIsRebuildable(Inner(es[|es| - 1])); }
    }
  }

  /** Normalising twice is normalising once, and normal forms are typed. */
  lemma {:induction false} NormalIsIdempotent(a: Agent)
    ensures Normal(Normal(a)) == Normal(a) && Typed(Normal(a))
    decreases a, 1
  {
    NormalsAreIdempotent(a.delegated, true);
    NormalsAreIdempotent(a.handoffs, false);
  }

  lemma {:induction false} NormalsAreIdempotent(es: seq<Entry>, unwrap: bool)
    ensures Normals(Normals(es, unwrap), unwrap) == Normals(es, unwrap)
    ensures AllTyped(Normals(es, unwrap), unwrap)
    decreases es, 0
  {
    if es != [] {
      var init, last := es[..|es| - 1], es[|es| - 1];
      NormalsAreIdempotent(init, unwrap);
      if Kept(last, unwrap) {
        NormalIsIdempotent(Inner(last));
        var out := Normals(es, unwrap);
        assert out[..|out| - 1] == Normals(init, unwrap);
      }
    }
  }

  // ----------------------------------------------------------------- envelope round trip

  /** Nothing in the envelope that an agent cannot carry, at any depth. */
  predicate Canonical(e: Envelope)
    decreases e, 1
  {
    && e.overrides == map[] && e.recipeId.None?
    && (e.provider.Some? ==> CanonicalPayload(e.provider.value))
    && AllCanonical(e.delegated) && AllCanonical(e.handoffs)
  }

  predicate AllCanonical(es: seq<Envelope>)
    decreases es, 0
  {
    es == [] || (AllCanonical(es[..|es| - 1]) && Canonical(es[|es| - 1]))
  }

  /** Rebuilding and enveloping again gives the same envelope exactly when it is canonical. */
  lemma {:induction false} EnvelopeSurvivesExactly(e: Envelope)
    ensures FromEnvelope(e).Some? && ToEnvelope(FromEnvelope(e).value) == e <==> Canonical(e)
    decreases e, 1
  {
    EnvelopesSurviveExactly(e.delegated);
    EnvelopesSurviveExactly(e.handoffs);
    if e.provider.Some? { PayloadSurvivesExactly(e.provider.value); }
    if FromEnvelope(e).Some? {
      UnwrappedAlike(e.handoffs);
    }
  }

  /** Rebuilt entries are plain agents, so looking into wrappers makes no difference. */
  lemma {:induction false} UnwrappedAlike(es: seq<Envelope>)
    requires FromEnvelopes(es).Some?
    ensures ToEnvelopes(FromEnvelopes(es).value, false) == ToEnvelopes(FromEnvelopes(es).value, true)
    ensures |ToEnvelopes(FromEnvelopes(es).value, true)| == |es|
    decreases es, 0
  {
    if es != [] {
      UnwrappedAlike(es[..|es| - 1]);
      var out := FromEnvelopes(es).value;
      assert out[..|out| - 1] == FromEnvelopes(es[..|es| - 1]).value;
    }
  }

  lemma SnocsAgree(a: seq<Envelope>, x: Envelope, b: seq<Envelope>, y: Envelope)
    requires |a| == |b|
    ensures a + [x] == b + [y] <==> a == b && x == y
  {
    assert (a + [x])[..|a|] == a && (b + [y])[..|b|] == b;
    assert (a + [x])[|a|] == x && (b + [y])[|b|] == y;
  }

  lemma {:induction false} RebuiltLast(es: seq<Envelope>)
    requires es != [] && FromEnvelopes(es).Some?
    ensures ToEnvelopes(FromEnvelopes(es).value, true)
            == ToEnvelopes(FromEnvelopes(es[..|es| - 1]).value, true)
               + [ToEnvelope(FromEnvelope(es[|es| - 1]).value)]
  {
    var out := FromEnvelopes(es).value;
    assert out[..|out| - 1] == FromEnvelopes(es[..|es| - 1]).value;
  }

  lemma {:induction false} EnvelopesSurviveExactly(es: seq<Envelope>)
    ensures FromEnvelopes(es).Some? && ToEnvelopes(FromEnvelopes(es).value, true) == es <==> AllCanonical(es)
    decreases es, 0
  {
    if es != [] {
      var init, last := es[..|es| - 1], es[|es| - 1];
      EnvelopesSurviveExactly(init);
      EnvelopeSurvivesExactly(last);
      if FromEnvelopes(es).Some? {
        UnwrappedAlike(init);
        RebuiltLast(es);
        assert es == init + [last];
        SnocsAgree(ToEnvelopes(FromEnvelopes(init).value, true), ToEnvelope(FromEnvelope(last).value), init, last);
      }
    }
  }

  // --------------------------------------------------- agents and their normal forms

  /** Every enveloped provider is a configuration, or projects to what one would. */
  predicate Portable(a: Agent)
    decreases a, 1
  {
    && (a.provider.Some? ==> CanonicalPayload(ProjectProvider(a.provider.value)))
    && AllPortable(a.delegated, true) && AllPortable(a.handoffs, false)
  }

  predicate AllPortable(es: seq<Entry>, unwrap: bool)
    decreases es, 0
  {
    es == [] ||
    (AllPortable(es[..|es| - 1], unwrap) && (Kept(es[|es| - 1], unwrap) ==> Portable(Inner(es[|es| - 1]))))
  }

  lemma {:induction false} PortableIsCanonical(a: Agent)
    ensures Portable(a) <==> Canonical(ToEnvelope(a))
    decreases a, 1
  {
    AllPortableAreCanonical(a.delegated, true);
    AllPortableAreCanonical(a.handoffs, false);
  }

  lemma {:induction false} AllPortableAreCanonical(es: seq<Entry>, unwrap: bool)
    ensures AllPortable(es, unwrap) <==> AllCanonical(ToEnvelopes(es, unwrap))
    decreases es, 0
  {
    if es != [] {
      var init, last := es[..|es| - 1], es[|es| - 1];
      AllPortableAreCanonical(init, unwrap);
      if Kept(last, unwrap) {
        PortableIsCanonical(Inner(last));
        var out := ToEnvelopes(es, unwrap);
        assert out[..|out| - 1] == ToEnvelopes(init, unwrap);
      }
    }
  }

  /** An agent and its normal form have the same envelope exactly when its providers are
      configurations or project to what one would, at every depth. */
  lemma {:induction false} NormalHasSameEnvelopeExactly(a: Agent)
    ensures ToEnvelope(Normal(a)) == ToEnvelope(a) <==> Portable(a)
  {
    RoundTripIsNormal(a);
    PortableIsCanonical(a);
    if Rebuildable(a) {
      EnvelopeSurvivesExactly(ToEnvelope(a));
    } else {
      NormalIsIdempotent(a);
      TypedIsRebuildable(Normal(a));
      RoundTripIsNormal(Normal(a));
      EnvelopeSurvivesExactly(ToEnvelope(a));
    }
  }

  /** The normal form, read off an envelope. */
  function NormalOf(e: Envelope): Agent
    decreases e, 1
  {
    Agent(e.core, if e.provider.None? then None else NormalProvider(Some(Foreign(e.provider.value))),
          None, None, NormalsOf(e.delegated), NormalsOf(e.handoffs))
  }

  function NormalsOf(es: seq<Envelope>): seq<Entry>
    decreases es, 0
  {
    if es == [] then [] else NormalsOf(es[..|es| - 1]) + [Direct(NormalOf(es[|es| - 1]))]
  }

  lemma {:induction false} NormalIsOfEnvelope(a: Agent)
    ensures Normal(a) == NormalOf(ToEnvelope(a))
    decreases a, 1
  {
    NormalsAreOfEnvelopes(a.delegated, true);
    NormalsAreOfEnvelopes(a.handoffs, false);
    if a.provider.Some? && a.provider.value.Config? { ConfigSurvives(a.provider.value.config); }
  }

  lemma {:induction false} NormalsAreOfEnvelopes(es: seq<Entry>, unwrap: bool)
    ensures Normals(es, unwrap) == NormalsOf(ToEnvelopes(es, unwrap))
    decreases es, 0
  {
    if es != [] {
      var init, last := es[..|es| - 1], es[|es| - 1];
      NormalsAreOfEnvelopes(init, unwrap);
      if Kept(last, unwrap) {
        NormalIsOfEnvelope(Inner(last));
        var out := ToEnvelopes(es, unwrap);
        assert out[..|out| - 1] == ToEnvelopes(init, unwrap);
      }
    }
  }

  // ------------------------------------------------------------------------------ hashes

  /** The digest tells these two envelopes apart, if they differ. */
  predicate TellsApart(digest: Envelope -> string, e: Envelope, f: Envelope) {
    digest(e) == digest(f) ==> e == f
  }

  /** As far as the digest tells the envelopes in play apart: agents with one hash have one
      normal form; an agent shares its hash with its normal form exactly when it is portable; so
      between portable agents the hash identifies the form. */
  lemma {:induction false} HashIdentifiesNormalForm(digest: Envelope -> string, a: Agent, b: Agent)
    requires TellsApart(digest, ToEnvelope(a), ToEnvelope(b))
    requires TellsApart(digest, ToEnvelope(a), ToEnvelope(Normal(a)))
    ensures digest(ToEnvelope(a)) == digest(ToEnvelope(b)) ==> Normal(a) == Normal(b)
    ensures digest(ToEnvelope(a)) == digest(ToEnvelope(Normal(a))) <==> Portable(a)
    ensures Portable(a) && Portable(b) && Normal(a) == Normal(b) ==>
              digest(ToEnvelope(a)) == digest(ToEnvelope(b))
  {
    NormalIsOfEnvelope(a);
    NormalIsOfEnvelope(b);
    NormalHasSameEnvelopeExactly(a);
    NormalHasSameEnvelopeExactly(b);
  }

  /** A stored envelope keeps its hash through a rebuild exactly when it is canonical, as far as
      the digest tells it from the rebuilt one. */
  lemma {:induction false} HashSurvivesExactly(digest: Envelope -> string, e: Envelope)
    requires FromEnvelope(e).Some? && TellsApart(digest, ToEnvelope(FromEnvelope(e).value), e)
    ensures digest(ToEnvelope(FromEnvelope(e).value)) == digest(e) <==> Canonical(e)
  {
    EnvelopeSurvivesExactly(e);
  }

  // ------------------------------------------------------------------------- the methods

  /** `to_envelope`, with its two loops. */
  method BuildEnvelope(a: Agent) returns (e: Envelope)
    ensures e == ToEnvelope(a)
    decreases a
  {
    var provider := if a.provider.None? then None else Some(ProjectProvider(a.provider.value));
    var delegated: seq<Envelope> := [];
    for i := 0 to |a.delegated|
      invariant delegated == ToEnvelopes(a.delegated[..i], true)
    {
      assert a.delegated[..i + 1][..i] == a.delegated[..i];
      var entry := a.delegated[i];
      if !entry.Other? {
        var inner := BuildEnvelope(entry.agent);
        delegated := delegated + [inner];
      }
    }
    assert a.delegated[..|a.delegated|] == a.delegated;
    var handoffs: seq<Envelope> := [];
    for i := 0 to |a.handoffs|
      invariant handoffs == ToEnvelopes(a.handoffs[..i], false)
    {
      assert a.handoffs[..i + 1][..i] == a.handoffs[..i];
      var entry := a.handoffs[i];
      if entry.Direct? {
        var inner := BuildEnvelope(entry.agent);
        handoffs := handoffs + [inner];
      }
    }
    assert a.handoffs[..|a.handoffs|] == a.handoffs;
    e := Envelope(a.core, provider, map[], delegated, handoffs, None);
  }
}
