/** The external world of a run some of whose steps were acted on again after the run had passed
    them. */
module LateWorlds {
  import opened Wrappers
  import opened Records
  import opened Steps

  /** The failure-free run up to step c, except that step i has left late[i] on the items it touches
      instead of its own effects. */
  function LateWorld(steps: seq<Step>, initial: Data, start: World, late: map<nat, World>, c: nat): World
    requires c <= |steps|
  {
    if c == 0 then start else
    var before, did := LateWorld(steps, initial, start, late, c - 1), CleanEffects(steps, initial, c - 1);
    if c - 1 in late then (before - did.Keys) + late[c - 1] else before + did
  }

  /** Late effects touch what the steps touch, and only steps before c. */
  ghost predicate LegalLate(steps: seq<Step>, initial: Data, late: map<nat, World>, c: nat) {
    forall i :: i in late ==> i < c && i < |steps| && late[i].Keys <= CleanEffects(steps, initial, i).Keys
  }

  /** What step i leaves on the items it touches. */
  function Left(steps: seq<Step>, initial: Data, late: map<nat, World>, i: nat): World
    requires i < |steps|
  {
    if i in late then late[i] else CleanEffects(steps, initial, i)
  }

  lemma TouchedApart(steps: seq<Step>, initial: Data, i: nat, k: nat)
    requires Contract(steps) && i < k < |steps|
    ensures CleanEffects(steps, initial, i).Keys !! CleanEffects(steps, initial, k).Keys
  {
    assert StepContract(steps, i) && StepContract(steps, k);
  }

  lemma {:induction false} TouchedIsOwned(steps: seq<Step>, initial: Data, c: nat, i: nat)
    requires c <= i < |steps|
    ensures CleanEffects(steps, initial, i).Keys <= TouchedFrom(steps, initial, c)
    decreases i - c
  {
    if c < i { TouchedIsOwned(steps, initial, c + 1, i); }
  }

  lemma {:induction false} LateWorldAt(steps: seq<Step>, initial: Data, start: World, late: map<nat, World>, c: nat, i: nat, item: string)
    requires Contract(steps) && i < c <= |steps| && LegalLate(steps, initial, late, |steps|)
    requires item in CleanEffects(steps, initial, i)
    ensures var world, left := LateWorld(steps, initial, start, late, c), Left(steps, initial, late, i);
            (item in world <==> item in left) && (item in left ==> world[item] == left[item])
  {
    if i < c - 1 {
      LateWorldAt(steps, initial, start, late, c - 1, i, item);
      TouchedApart(steps, initial, i, c - 1);
    }
  }

  lemma {:induction false} HarmlessLateWorld(steps: seq<Step>, initial: Data, start: World, late: map<nat, World>, c: nat)
    requires c <= |steps|
    requires forall i :: i in late && i < c ==> late[i] == CleanEffects(steps, initial, i)
    ensures LateWorld(steps, initial, start, late, c) == CleanWorld(steps, initial, start, c)
  {
    if c > 0 { HarmlessLateWorld(steps, initial, start, late, c - 1); }
  }

  /** The world is that of the failure-free run if and only if every late effect has left just what
      the step itself leaves. */
  lemma CleanExactlyWhen(steps: seq<Step>, initial: Data, start: World, late: map<nat, World>, c: nat)
    requires Contract(steps) && c <= |steps| && LegalLate(steps, initial, late, c)
    ensures LateWorld(steps, initial, start, late, c) == CleanWorld(steps, initial, start, c)
            <==> forall i :: i in late ==> late[i] == CleanEffects(steps, initial, i)
  {
    if LateWorld(steps, initial, start, late, c) == CleanWorld(steps, initial, start, c) {
      HarmlessLateWorld(steps, initial, start, map[], c);
      forall i | i in late ensures late[i] == CleanEffects(steps, initial, i) {
        var did := CleanEffects(steps, initial, i);
        forall item | item in did ensures item in late[i] && late[i][item] == did[item] {
          LateWorldAt(steps, initial, start, late, c, i, item);
          LateWorldAt(steps, initial, start, map[], c, i, item);
        }
      }
    } else {
      if forall i :: i in late ==> late[i] == CleanEffects(steps, initial, i) {
        HarmlessLateWorld(steps, initial, start, late, c);
      }
    }
  }

  /** Acting once more at step i on the failure-free world changes nothing if and only if this leaves,
      on the items the step touches, what the step leaves. */
  lemma ActingAgainExactlyWhen(steps: seq<Step>, initial: Data, start: World, i: nat, data: Option<Data>, did: World)
    requires Contract(steps) && i < |steps| && Contents(data) == CleanData(steps, initial, i)
    ensures var clean, left := CleanWorld(steps, initial, start, |steps|), CleanEffects(steps, initial, i);
            HalfWorld(steps[i], data, clean, did) == clean <==> Only(did, left.Keys) == left
  {
    var clean, left := CleanWorld(steps, initial, start, |steps|), CleanEffects(steps, initial, i);
    HarmlessLateWorld(steps, initial, start, map[], |steps|);
    forall item | item in left ensures item in clean && clean[item] == left[item] {
      LateWorldAt(steps, initial, start, map[], |steps|, i, item);
    }
    hide CleanWorld, Contract;
    OverwritingExactlyWhen(clean, left, Only(did, left.Keys));
  }

  lemma OverwritingExactlyWhen(world: World, left: World, done: World)
    requires done.Keys <= left.Keys && forall item :: item in left ==> item in world && world[item] == left[item]
    ensures (world - left.Keys) + done == world <==> done == left
  {
    var world' := (world - left.Keys) + done;
    if world' == world {
      forall item | item in left ensures item in done && done[item] == left[item] {
        assert item in world' && world'[item] == left[item];
      }
    }
  }

  lemma {:induction false} LaterStepsDoNotMatter(steps: seq<Step>, initial: Data, start: World, late: map<nat, World>, c: nat, i: nat, did: World)
    requires c <= i && c <= |steps|
    ensures LateWorld(steps, initial, start, late[i := did], c) == LateWorld(steps, initial, start, late, c)
  {
    if c > 0 { LaterStepsDoNotMatter(steps, initial, start, late, c - 1, i, did); }
  }

  /** One more late effect changes just the items that its step touches. */
  lemma {:induction false} AddLateEffect(steps: seq<Step>, initial: Data, start: World, late: map<nat, World>, c: nat, i: nat, did: World)
    requires Contract(steps) && i < c <= |steps| && LegalLate(steps, initial, late, |steps|)
    requires did.Keys <= CleanEffects(steps, initial, i).Keys
    ensures LateWorld(steps, initial, start, late[i := did], c)
         == (LateWorld(steps, initial, start, late, c) - CleanEffects(steps, initial, i).Keys) + did
  {
    var touched := CleanEffects(steps, initial, i).Keys;
    var before := LateWorld(steps, initial, start, late, c - 1);
    if i == c - 1 {
      LaterStepsDoNotMatter(steps, initial, start, late, i, i, did);
      Overwrites(before, touched, Left(steps, initial, late, i), did);
    } else {
      AddLateEffect(steps, initial, start, late, c - 1, i, did);
      TouchedApart(steps, initial, i, c - 1);
      Commutes(before, touched, did, CleanEffects(steps, initial, c - 1).Keys, Left(steps, initial, late, c - 1));
    }
  }

  lemma Overwrites(world: World, touched: set<string>, left: World, did: World)
    requires left.Keys <= touched && did.Keys <= touched
    ensures (((world - touched) + left) - touched) + did == (world - touched) + did
    ensures ((world + left) - touched) + did == (world - touched) + did
  {
  }

  lemma Commutes(world: World, touched: set<string>, did: World, others: set<string>, left: World)
    requires touched !! others && did.Keys <= touched && left.Keys <= others
    ensures (((world - touched) + did) - others) + left == (((world - others) + left) - touched) + did
    ensures ((world - touched) + did) + left == ((world + left) - touched) + did
  {
  }

  lemma SameDamage(a: World, b: World, touched: set<string>, did: World, hidden: set<string>)
    requires AgreeOutside(a, b, hidden)
    ensures AgreeOutside((a - touched) + did, (b - touched) + did, hidden)
  {
    forall k | k !in hidden
      ensures (k in (a - touched) + did <==> k in (b - touched) + did)
      ensures k in (a - touched) + did ==> ((a - touched) + did)[k] == ((b - touched) + did)[k]
    {
      AgreeOutsideLookup(a, b, hidden, k);
    }
    AgreeOutsidePointwise((a - touched) + did, (b - touched) + did, hidden);
  }

  // ---------- How far a run has taken the world ----------

  /** The world has got as far as step c, up to late effects and to what the remaining steps will
      set, and it differs from its start only in what the steps touch. */
  ghost predicate WorldAt(steps: seq<Step>, initial: Data, start: World, late: map<nat, World>, c: int, world: World) {
    && 0 <= c <= |steps|
    && LegalLate(steps, initial, late, c)
    && AgreeOutside(world, start, TouchedFrom(steps, initial, 0))
    && AgreeOutside(world, LateWorld(steps, initial, start, late, c), TouchedFrom(steps, initial, c))
  }

  /** Going back to the first step. */
  lemma WorldStartsOver(steps: seq<Step>, initial: Data, start: World, late: map<nat, World>, c: int, world: World)
    requires WorldAt(steps, initial, start, late, c, world)
    ensures WorldAt(steps, initial, start, map[], 0, world)
  {
  }

  /** A step acts on the world, at whatever point the run is: before the run reaches it this changes
      nothing that counts, and afterwards it is a late effect. */
  lemma WorldIsActedOn(steps: seq<Step>, initial: Data, start: World, late: map<nat, World>, c: int, world: World,
                       i: nat, data: Option<Data>, did: World)
    requires Contract(steps) && WorldAt(steps, initial, start, late, c, world)
    requires i < |steps| && Contents(data) == CleanData(steps, initial, i)
    ensures var world' := HalfWorld(steps[i], data, world, did);
            var late' := if i < c then late[i := Only(did, Touched(steps[i], data))] else late;
            WorldAt(steps, initial, start, late', c, world')
  {
    hide Contract, LateWorld, TouchedFrom, AgreeOutside, CleanData;
    var touched := Touched(steps[i], data);
    var done := Only(did, touched);
    TouchedIsOwned(steps, initial, 0, i);
    DamageStaysHidden(world, start, touched, done, TouchedFrom(steps, initial, 0));
    if i < c {
      AddLateEffect(steps, initial, start, late, c, i, done);
      SameDamage(world, LateWorld(steps, initial, start, late, c), touched, done, TouchedFrom(steps, initial, c));
    } else {
      TouchedIsOwned(steps, initial, c, i);
      DamageStaysHidden(world, LateWorld(steps, initial, start, late, c), touched, done, TouchedFrom(steps, initial, c));
    }
  }

  /** The next step finishes. */
  lemma WorldAdvances(steps: seq<Step>, initial: Data, start: World, late: map<nat, World>, c: nat, world: World, data: Option<Data>)
    requires Contract(steps) && WorldAt(steps, initial, start, late, c, world)
    requires c < |steps| && Contents(data) == CleanData(steps, initial, c)
    ensures WorldAt(steps, initial, start, late, c + 1, FinishedWorld(steps[c], data, world))
  {
    var did := CleanEffects(steps, initial, c);
    SettingRestoresAgreement(world, LateWorld(steps, initial, start, late, c), did, TouchedFrom(steps, initial, c + 1));
    TouchedIsOwned(steps, initial, 0, c);
    DamageStaysHidden(world, start, did.Keys, did, TouchedFrom(steps, initial, 0));
    assert (world - did.Keys) + did == world + did;
  }

  lemma WorldAtTheEnd(steps: seq<Step>, initial: Data, start: World, late: map<nat, World>, world: World)
    requires WorldAt(steps, initial, start, late, |steps|, world)
    ensures world == LateWorld(steps, initial, start, late, |steps|)
  {
    var w := LateWorld(steps, initial, start, late, |steps|);
    assert world - {} == world && w - {} == w;
  }
}
