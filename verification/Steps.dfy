/** The contract a workflow step owes the runner (internal/workflow/step.go), made explicit:
    a step sets its own data keys and items of its own part of the external systems, which items and
    to what depending on data that earlier steps or the payload provided; when it fails it may leave
    the items it would have set half done. */
module Steps {
  import opened Wrappers
  import opened Errors
  import opened Records

  /** Named items in the external systems and what they are set to. */
  type World = map<string, string>

  datatype Step = Step(
    name: string, keys: set<string>, part: set<string>,
    writes: Data -> Data, effects: Data -> World)

  /** How one execution of a step ends. A failing step has written `wrote` and done `did`; a step
      whose process dies leaves only `did` behind. Of `did`, only the items that the step touches
      with the data it was given count. */
  datatype Choice =
    | Succeeds
    | Fails(err: Error, wrote: Data, did: World)
    | Dies(did: World)

  // ---------- One execution ----------

  function FinishedData(step: Step, data: Option<Data>): Option<Data> {
    if step.keys == {} then data else Some(Contents(data) + step.writes(Contents(data)))
  }

  function FinishedWorld(step: Step, data: Option<Data>, world: World): World {
    world + step.effects(Contents(data))
  }

  function HalfData(step: Step, data: Option<Data>, wrote: Data): Option<Data> {
    if step.keys == {} || (data.None? && wrote == map[]) then data
    else Some((Contents(data) - step.keys) + wrote)
  }

  /** The external items the step acts on when it is given `data`. */
  function Touched(step: Step, data: Option<Data>): set<string> {
    step.effects(Contents(data)).Keys
  }

  function Only(did: World, items: set<string>): (r: World)
    ensures r.Keys == did.Keys * items
    ensures did.Keys <= items ==> r == did
  {
    map k | k in did && k in items :: did[k]
  }

  function HalfWorld(step: Step, data: Option<Data>, world: World, did: World): World {
    (world - Touched(step, data)) + Only(did, Touched(step, data))
  }

  // ---------- The contract ----------

  function KeysFrom(steps: seq<Step>, i: nat): set<string>
    decreases |steps| - i
  {
    if i >= |steps| then {} else steps[i].keys + KeysFrom(steps, i + 1)
  }

  ghost predicate SetsItsOwn(step: Step) {
    forall d: Data ::
      && step.writes(d).Keys == step.keys
      && step.effects(d).Keys <= step.part
      && Marshals(Some(step.writes(d)))
  }

  ghost predicate IgnoresKeys(step: Step, hidden: set<string>) {
    forall d1: Data, d2: Data {:trigger step.writes(d1), step.writes(d2)} ::
      d1 - hidden == d2 - hidden ==> step.writes(d1) == step.writes(d2) && step.effects(d1) == step.effects(d2)
  }

  ghost predicate StepContract(steps: seq<Step>, i: nat)
    requires i < |steps|
  {
    && SetsItsOwn(steps[i])
    && IgnoresKeys(steps[i], KeysFrom(steps, i))
    && steps[i].keys !! KeysFrom(steps, i + 1)
    && forall k :: i < k < |steps| ==> steps[i].part !! steps[k].part
  }

  ghost predicate Contract(steps: seq<Step>) {
    forall i: nat :: i < |steps| ==> StepContract(steps, i)
  }

  /** What a step may leave behind when it does not finish. */
  ghost predicate LegalChoice(step: Step, choice: Choice) {
    match choice
    case Succeeds => true
    case Fails(_, wrote, _) => wrote.Keys <= step.keys && Marshals(Some(wrote))
    case Dies(_) => true
  }

  // ---------- The failure-free run, step by step ----------

  function CleanData(steps: seq<Step>, initial: Data, c: nat): Data
    requires c <= |steps|
  {
    if c == 0 then initial
    else
      var before := CleanData(steps, initial, c - 1);
      before + steps[c - 1].writes(before)
  }

  function CleanWorld(steps: seq<Step>, initial: Data, world: World, c: nat): World
    requires c <= |steps|
  {
    if c == 0 then world
    else CleanWorld(steps, initial, world, c - 1) + CleanEffects(steps, initial, c - 1)
  }

  /** What step i does, and the items it touches, in the failure-free run. */
  function CleanEffects(steps: seq<Step>, initial: Data, i: nat): World
    requires i < |steps|
  {
    steps[i].effects(CleanData(steps, initial, i))
  }

  /** The items that the steps from `i` on touch in the failure-free run. */
  function TouchedFrom(steps: seq<Step>, initial: Data, i: nat): set<string>
    decreases |steps| - i
  {
    if i >= |steps| then {} else CleanEffects(steps, initial, i).Keys + TouchedFrom(steps, initial, i + 1)
  }

  // ---------- Being on the way of that run ----------

  /** `a` and `b` are the same except for what is stored under `hidden`. */
  ghost predicate AgreeOutside<V>(a: map<string, V>, b: map<string, V>, hidden: set<string>) {
    a - hidden == b - hidden
  }

  lemma AgreeOutsidePointwise<V>(a: map<string, V>, b: map<string, V>, hidden: set<string>)
    requires forall k :: k !in hidden ==> (k in a <==> k in b) && (k in a ==> a[k] == b[k])
    ensures AgreeOutside(a, b, hidden)
  {
    assert (a - hidden).Keys == (b - hidden).Keys;
  }

  lemma AgreeOutsideLookup<V>(a: map<string, V>, b: map<string, V>, hidden: set<string>, k: string)
    requires AgreeOutside(a, b, hidden) && k !in hidden
    ensures k in a <==> k in b
    ensures k in a ==> a[k] == b[k]
  {
    assert k in a - hidden <==> k in b - hidden;
    if k in a {
      assert (a - hidden)[k] == (b - hidden)[k];
    }
  }

  /** Setting `update` on both sides needs no more agreement on its keys. */
  lemma SettingRestoresAgreement<V>(a: map<string, V>, b: map<string, V>, update: map<string, V>, rest: set<string>)
    requires AgreeOutside(a, b, update.Keys + rest)
    ensures AgreeOutside(a + update, b + update, rest)
  {
    forall k | k !in rest
      ensures (k in a + update <==> k in b + update) && (k in a + update ==> (a + update)[k] == (b + update)[k])
    {
      if k !in update {
        AgreeOutsideLookup(a, b, update.Keys + rest, k);
      }
    }
    AgreeOutsidePointwise(a + update, b + update, rest);
  }

  /** Whatever happens to hidden keys keeps the agreement. */
  lemma DamageStaysHidden<V>(a: map<string, V>, b: map<string, V>, owned: set<string>, junk: map<string, V>, hidden: set<string>)
    requires AgreeOutside(a, b, hidden) && owned <= hidden && junk.Keys <= owned
    ensures AgreeOutside((a - owned) + junk, b, hidden)
  {
    forall k | k !in hidden
      ensures (k in (a - owned) + junk <==> k in b) && (k in b ==> ((a - owned) + junk)[k] == b[k])
    {
      AgreeOutsideLookup(a, b, hidden, k);
    }
    AgreeOutsidePointwise((a - owned) + junk, b, hidden);
  }

  /** Data and world before step `c`, up to what steps from `c` on will set anyway. */
  ghost predicate OnTrack(steps: seq<Step>, initial: Data, start: World, c: nat, data: Data, world: World)
    requires c <= |steps|
  {
    && AgreeOutside(data, CleanData(steps, initial, c), KeysFrom(steps, c))
    && AgreeOutside(world, CleanWorld(steps, initial, start, c), TouchedFrom(steps, initial, c))
  }

  /** A step that starts on track and finishes does exactly what it does in the clean run. */
  lemma FinishingStaysOnTrack(steps: seq<Step>, initial: Data, start: World, c: nat, data: Data, world: World)
    requires Contract(steps) && c < |steps| && OnTrack(steps, initial, start, c, data, world)
    ensures OnTrack(steps, initial, start, c + 1, data + steps[c].writes(data), world + steps[c].effects(data))
  {
    var clean := CleanData(steps, initial, c);
    assert StepContract(steps, c);
    assert steps[c].writes(data) == steps[c].writes(clean);
    SettingRestoresAgreement(data, clean, steps[c].writes(data), KeysFrom(steps, c + 1));
    SettingRestoresAgreement(world, CleanWorld(steps, initial, start, c), steps[c].effects(data), TouchedFrom(steps, initial, c + 1));
  }

  /** A step that does not finish leaves everything on track for its own next execution. */
  lemma FailingStaysOnTrack(steps: seq<Step>, initial: Data, start: World, c: nat, data: Data, world: World,
                            wrote: Data, did: World)
    requires Contract(steps) && c < |steps| && OnTrack(steps, initial, start, c, data, world)
    requires wrote.Keys <= steps[c].keys
    ensures var world' := HalfWorld(steps[c], Some(data), world, did);
            && OnTrack(steps, initial, start, c, (data - steps[c].keys) + wrote, world')
            && OnTrack(steps, initial, start, c, data, world')
  {
    assert StepContract(steps, c);
    assert steps[c].effects(data) == CleanEffects(steps, initial, c);
    var touched := Touched(steps[c], Some(data));
    DamageStaysHidden(data, CleanData(steps, initial, c), steps[c].keys, wrote, KeysFrom(steps, c));
    DamageStaysHidden(world, CleanWorld(steps, initial, start, c), touched, Only(did, touched), TouchedFrom(steps, initial, c));
  }

  /** At the end there is nothing left to hide. */
  lemma OnTrackAtTheEnd(steps: seq<Step>, initial: Data, start: World, data: Data, world: World)
    requires OnTrack(steps, initial, start, |steps|, data, world)
    ensures data == CleanData(steps, initial, |steps|)
    ensures world == CleanWorld(steps, initial, start, |steps|)
  {
    assert data - {} == data && world - {} == world;
    var d, w := CleanData(steps, initial, |steps|), CleanWorld(steps, initial, start, |steps|);
    assert d - {} == d && w - {} == w;
  }

  /** A key that no step owns keeps its value from the payload to the end. */
  lemma {:induction false} PayloadSurvives(steps: seq<Step>, initial: Data, c: nat, key: string)
    requires Contract(steps) && c <= |steps| && key !in KeysFrom(steps, 0)
    ensures key in CleanData(steps, initial, c) <==> key in initial
    ensures key in initial ==> CleanData(steps, initial, c)[key] == initial[key]
  {
    if c > 0 {
      PayloadSurvives(steps, initial, c - 1, key);
      assert StepContract(steps, c - 1);
      OwnedKeys(steps, 0, c - 1);
      var before := CleanData(steps, initial, c - 1);
      assert steps[c - 1].writes(before).Keys == steps[c - 1].keys;
    }
  }

  lemma {:induction false} OwnedKeys(steps: seq<Step>, i: nat, k: nat)
    requires i <= k < |steps|
    ensures steps[k].keys <= KeysFrom(steps, i)
    decreases k - i
  {
    if i < k { OwnedKeys(steps, i + 1, k); }
  }

  // ---------- Steps that meet the contract ----------

  /** A step that does nothing, like the stubs of internal/jobs/onboard_org.go. */
  function Stub(name: string): Step {
    Step(name, {}, {}, (d: Data) => map[], (d: Data) => map[])
  }

  /** The writing step of internal/workflow/runner_test.go. */
  function Writing(name: string, key: string, value: string): Step {
    Step(name, {key}, {}, (d: Data) => map[key := JString(value)], (d: Data) => map[])
  }

  /** A step that names an external item after a value an earlier step stored. */
  function Provisioning(name: string, item: string, source: string): Step {
    Step(name, {}, {item}, (d: Data) => map[],
         (d: Data) => map[item := if source in d && d[source].JString? then d[source].s else ""])
  }

  const ONBOARD_STEPS := [
    Stub("check_org"), Stub("network_config"), Stub("saml_config"), Stub("zerto_setup"),
    Stub("ldap_update"), Stub("keycloak_sync"), Stub("vapp_template")]

  lemma {:induction false} StubsOwnNothing(steps: seq<Step>, i: nat)
    requires forall k :: 0 <= k < |steps| ==> steps[k].keys == {}
    ensures KeysFrom(steps, i) == {}
    decreases |steps| - i
  {
    if i < |steps| { StubsOwnNothing(steps, i + 1); }
  }

  /** The worker's own steps meet the contract and own no data key. */
  lemma OnboardStepsMeetContract()
    ensures Contract(ONBOARD_STEPS) && KeysFrom(ONBOARD_STEPS, 0) == {}
  {
    forall i: nat | i < |ONBOARD_STEPS| ensures StepContract(ONBOARD_STEPS, i) {
      StubsOwnNothing(ONBOARD_STEPS, i);
      StubsOwnNothing(ONBOARD_STEPS, i + 1);
    }
    StubsOwnNothing(ONBOARD_STEPS, 0);
  }

  /** A step that acts only for one product, like the vapp_template step that is planned. */
  function ForProduct(name: string, product: string, item: string): Step {
    Step(name, {}, {item}, (d: Data) => map[],
         (d: Data) => if "product_id" in d && d["product_id"] == JString(product) then map[item := product] else map[])
  }

  const EXAMPLE := [
    Writing("check_org", "vcd_org_id", "urn:1"), Provisioning("network_config", "network", "vcd_org_id"),
    ForProduct("vapp_template", "42", "vapp")]

  const PAYLOAD_42 := map["product_id" := JString("42")]

  /** So do steps that write data, read what earlier steps wrote, and act outside, always or only for
      some payloads. */
  lemma WritingAndProvisioningMeetContract()
    ensures Contract(EXAMPLE)
    ensures CleanWorld(EXAMPLE, map[], map[], 3) == map["network" := "urn:1"]
    ensures CleanWorld(EXAMPLE, PAYLOAD_42, map[], 3) == map["network" := "urn:1", "vapp" := "42"]
  {
    hide StepContract, CleanWorld;
    forall i: nat | i < |EXAMPLE| ensures StepContract(EXAMPLE, i) {
      ExampleMeetsContract(i);
    }
    ExampleWorld(map[]);
    ExampleWorld(PAYLOAD_42);
    assert "vcd_org_id"[0] == 'v' && "product_id"[0] == 'p';
  }

  lemma ExampleMeetsContract(i: nat)
    requires i < 3
    ensures StepContract(EXAMPLE, i)
  {
    assert KeysFrom(EXAMPLE, 3) == {} && KeysFrom(EXAMPLE, 2) == {} && KeysFrom(EXAMPLE, 1) == {};
    forall d1: Data, d2: Data | d1 - {} == d2 - {} ensures d1 == d2 {
      assert d1 - {} == d1 && d2 - {} == d2;
    }
    assert "network"[0] == 'n' && "vapp"[0] == 'v';
  }

  lemma ExampleWorld(initial: Data)
    ensures CleanData(EXAMPLE, initial, 2) == initial["vcd_org_id" := JString("urn:1")]
    ensures CleanWorld(EXAMPLE, initial, map[], 3)
         == map["network" := "urn:1"] + EXAMPLE[2].effects(initial["vcd_org_id" := JString("urn:1")])
  {
    assert CleanData(EXAMPLE, initial, 1) == initial["vcd_org_id" := JString("urn:1")];
    assert CleanWorld(EXAMPLE, initial, map[], 1) == map[];
    assert CleanWorld(EXAMPLE, initial, map[], 2) == map["network" := "urn:1"];
  }
}
