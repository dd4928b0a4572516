/** The service on the node's machine: two containers, of which one belongs to each mode, and the validator
    keys put into the running one. */
module Containers {
  import opened Types

  // ---------- the container store ----------

  datatype Name = Validator | Sync | Other(id: nat)

  datatype Container = Container(running: bool)

  type Store = map<Name, Container>

  predicate Running(c: Store, name: Name) {
    name in c && c[name].running
  }

  /** Docker with reliable operations. Only an image may be missing: `image` tells whether it is on the machine
      or can be pulled. */
  class Docker {
    var containers: Store

    constructor ()
      ensures containers == map[]
    {
      containers := map[];
    }

    method GetContainer(name: Name) returns (r: Option<Container>)
      ensures r == Lookup(containers, name)
    {
      return Lookup(containers, name);
    }

    method IsContainerRunning(name: Name) returns (r: bool)
      ensures r <==> Running(containers, name)
    {
      var container := GetContainer(name);
      return container.Some? && container.value.running;
    }

    method RemoveContainer(name: Name) returns (r: bool)
      modifies this
      ensures containers == old(containers) - {name}
      ensures r <==> name in old(containers)
    {
      var container := GetContainer(name);
      if container.None? {
        assert containers == containers - {name};
        return false;
      }
      containers := containers - {name};
      return true;
    }

    /** Afterwards the container is running unless it was missing and there is no image. */
    method StartContainer(name: Name, image: bool) returns (r: bool)
      modifies this
      ensures containers == if name in old(containers) || image then old(containers)[name := Container(true)]
                            else old(containers)
      ensures r <==> !Running(old(containers), name) && Running(containers, name)
    {
      var container := GetContainer(name);
      if container.None? {
        if !image {
          return false;
        }
        containers := containers[name := Container(true)];
        return true;
      }
      if !container.value.running {
        containers := containers[name := Container(true)];
        return true;
      }
      assert containers[name] == Container(true);
      assert containers == containers[name := Container(true)];
      return false;
    }
  }

  // ---------- keys ----------

  /** What came of inserting one key and asking for it: no answer to the insertion, the key asked for and absent,
      present, or the question failing. */
  datatype KeyAnswer = NotPosted | Absent | Present | Broken

  type PublicKey = nat

  const KEYS: nat := 6

  /** The keys imported when the import goes on at key `i`, and whether a broken question ends it. */
  function ImportFrom(imported: seq<PublicKey>, keys: seq<PublicKey>, answers: seq<KeyAnswer>, i: nat)
    : (seq<PublicKey>, bool)
    requires i <= |keys| == |answers|
    decreases |keys| - i
  {
    if i == |keys| then (imported, false)
    else if keys[i] in imported || answers[i].NotPosted? || answers[i].Absent?
    then ImportFrom(imported, keys, answers, i + 1)
    else if answers[i].Broken? then (imported, true)
    else ImportFrom(imported + [keys[i]], keys, answers, i + 1)
  }

  function ImportKeys(imported: seq<PublicKey>, keys: seq<PublicKey>, answers: seq<KeyAnswer>): seq<PublicKey>
    requires |keys| == |answers|
  {
    if |imported| >= KEYS then imported else ImportFrom(imported, keys, answers, 0).0
  }

  /** The question for key `k` is broken, and the key is neither imported already nor found present at an earlier
      place from `i` on. */
  predicate BrokenAt(imported: seq<PublicKey>, keys: seq<PublicKey>, answers: seq<KeyAnswer>, i: nat, k: nat)
    requires i <= k < |keys| == |answers|
  {
    answers[k].Broken? && keys[k] !in imported && forall j :: i <= j < k && keys[j] == keys[k] ==> !answers[j].Present?
  }

  /** So a question ends the import if and only if some key's question is broken that is still to be asked then. */
  lemma {:induction false} BreaksExactly(imported: seq<PublicKey>, keys: seq<PublicKey>, answers: seq<KeyAnswer>,
                                         i: nat)
    requires i <= |keys| == |answers|
    ensures ImportFrom(imported, keys, answers, i).1 <==>
            exists k :: i <= k < |keys| && BrokenAt(imported, keys, answers, i, k)
    decreases |keys| - i
  {
    if i < |keys| {
      var adds := keys[i] !in imported && answers[i].Present?;
      var next := if adds then imported + [keys[i]] else imported;
      if BrokenAt(imported, keys, answers, i, i) {
        assert ImportFrom(imported, keys, answers, i).1;
      } else {
        BreaksExactly(next, keys, answers, i + 1);
        assert ImportFrom(imported, keys, answers, i).1 == ImportFrom(next, keys, answers, i + 1).1;
        if k :| i <= k < |keys| && BrokenAt(imported, keys, answers, i, k) {
          assert k != i && BrokenAt(next, keys, answers, i + 1, k);
        }
        var from := i + 1;
        if k :| from <= k < |keys| && BrokenAt(next, keys, answers, from, k) {
          assert BrokenAt(imported, keys, answers, i, k);
        }
      }
    }
  }

  // ---------- the service ----------

  function UpName(mode: Mode): Name {
    if mode.Active? then Validator else Sync
  }

  function DownName(mode: Mode): Name {
    if mode.Active? then Sync else Validator
  }

  /** The store after starting the service in a mode. */
  function Started(c: Store, mode: Mode, image: bool): Store {
    if Running(c, UpName(mode)) then c
    else if image then (c - {UpName(mode), DownName(mode)})[UpName(mode) := Container(true)]
    else c - {UpName(mode), DownName(mode)}
  }

  function Launched(c: Store): Mode {
    if Running(c, Validator) then Active else if Running(c, Sync) then Passive else Idle
  }

  datatype StartResult = Handled(changed: bool) | UnknownMode

  class Polkadot {
    const docker: Docker
    const keys: seq<PublicKey>
    var cleaningUp: bool
    var importedKeys: seq<PublicKey>

    ghost predicate Valid()
    {
      |keys| == KEYS
    }

    constructor (docker: Docker, keys: seq<PublicKey>)
      requires |keys| == KEYS
      ensures Valid() && this.docker == docker && this.keys == keys && !cleaningUp && importedKeys == []
    {
      this.docker, this.keys := docker, keys;
      cleaningUp, importedKeys := false, [];
    }

    method CheckLaunchedContainer() returns (r: Mode)
      ensures r == Launched(docker.containers)
      ensures r.Active? <==> Running(docker.containers, Validator)
      ensures r.Passive? <==> Running(docker.containers, Sync) && !Running(docker.containers, Validator)
    {
      var validator := docker.IsContainerRunning(Validator);
      if validator {
        return Active;
      }
      var sync := docker.IsContainerRunning(Sync);
      if sync {
        return Passive;
      }
      return Idle;
    }

    /** The container to go is removed in any case. A running container to come is left as it is, and otherwise
        created anew if there is an image. */
    method PrepareAndStart(upName: Name, downName: Name, image: bool) returns (r: bool)
      modifies docker
      ensures var kept := old(docker.containers) - {downName};
              if Running(kept, upName) then docker.containers == kept && !r
              else r == image &&
                   docker.containers == if image then (kept - {upName})[upName := Container(true)] else kept - {upName}
    {
      var containerUp := docker.GetContainer(upName);
      var containerDown := docker.GetContainer(downName);
      if containerDown.Some? {
        var removed := docker.RemoveContainer(downName);
      }
      ghost var kept := old(docker.containers) - {downName};
      assert docker.containers == kept;
      if containerUp.None? {
        assert kept - {upName} == kept;
        r := docker.StartContainer(upName, image);
        return;
      }
      var running := docker.IsContainerRunning(upName);
      if !running {
        var removed := docker.RemoveContainer(upName);
        r := docker.StartContainer(upName, image);
        return;
      }
      return false;
    }

    method StartServiceContainer(mode: Mode, image: bool) returns (r: StartResult)
      modifies docker
      ensures r.UnknownMode? <==> mode.Idle?
      ensures docker.containers == if mode.Idle? then old(docker.containers)
                                   else Started(old(docker.containers), mode, image)
      ensures r.Handled? ==> (r.changed <==> !Running(old(docker.containers), UpName(mode)) && image)
    {
      if mode.Active? {
        var running := docker.IsContainerRunning(Validator);
        if running {
          return Handled(false);
        }
      }
      if mode.Passive? {
        var running := docker.IsContainerRunning(Sync);
        if running {
          return Handled(false);
        }
      }
      ghost var before := docker.containers;
      if mode.Active? {
        var started := PrepareAndStart(Validator, Sync, image);
        assert before - {Sync} - {Validator} == before - {Validator, Sync};
        return Handled(started);
      }
      if mode.Passive? {
        var started := PrepareAndStart(Sync, Validator, image);
        assert before - {Validator} - {Sync} == before - {Sync, Validator};
        return Handled(started);
      }
      return UnknownMode;
    }

    /** Imports one key; `broken` if asking for it failed. */
    method ImportKey(publicKey: PublicKey, answer: KeyAnswer) returns (added: bool, broken: bool)
      modifies this`importedKeys
      ensures added <==> publicKey !in old(importedKeys) && answer.Present?
      ensures broken <==> publicKey !in old(importedKeys) && answer.Broken?
      ensures importedKeys == if added then old(importedKeys) + [publicKey] else old(importedKeys)
    {
      if publicKey in importedKeys {
        return false, false;
      }
      if answer.NotPosted? {
        return false, false;
      }
      if answer.Broken? {
        return false, true;
      }
      if answer.Absent? {
        return false, false;
      }
      importedKeys := importedKeys + [publicKey];
      return true, false;
    }

    method PolkadotKeysImport(answers: seq<KeyAnswer>) returns (r: bool)
      requires Valid() && |answers| == KEYS
      modifies this`importedKeys
      ensures importedKeys == ImportKeys(old(importedKeys), keys, answers)
      ensures r <==> |old(importedKeys)| < KEYS && !ImportFrom(old(importedKeys), keys, answers, 0).1
    {
      if |importedKeys| >= KEYS {
        return false;
      }
      ghost var all := ImportFrom(importedKeys, keys, answers, 0);
      var added, broken := ImportKey(keys[0], answers[0]);
      if broken { return false; }
      assert all == ImportFrom(importedKeys, keys, answers, 1);
      added, broken := ImportKey(keys[1], answers[1]);
      if broken { return false; }
      assert all == ImportFrom(importedKeys, keys, answers, 2);
      added, broken := ImportKey(keys[2], answers[2]);
      if broken { return false; }
      assert all == ImportFrom(importedKeys, keys, answers, 3);
      added, broken := ImportKey(keys[3], answers[3]);
      if broken { return false; }
      assert all == ImportFrom(importedKeys, keys, answers, 4);
      added, broken := ImportKey(keys[4], answers[4]);
      if broken { return false; }
      assert all == ImportFrom(importedKeys, keys, answers, 5);
      added, broken := ImportKey(keys[5], answers[5]);
      if broken { return false; }
      assert all == ImportFrom(importedKeys, keys, answers, 6);
      return true;
    }

    method Start(mode: Mode, image: bool, answers: seq<KeyAnswer>) returns (r: StartResult)
      requires Valid() && |answers| == KEYS
      modifies docker, this`importedKeys
      ensures r.UnknownMode? <==> mode.Idle?
      ensures mode.Idle? ==> docker.containers == old(docker.containers) && importedKeys == old(importedKeys)
      ensures !mode.Idle? ==>
                && docker.containers == Started(old(docker.containers), mode, image)
                && importedKeys == ImportKeys(old(importedKeys), keys, answers)
                && (r.changed <==> !Running(old(docker.containers), UpName(mode)) && image)
    {
      if mode.Idle? {
        return UnknownMode;
      }
      r := StartServiceContainer(mode, image);
      var imported := PolkadotKeysImport(answers);
    }

    method CleanUp() returns (r: bool)
      modifies this`cleaningUp, docker
      ensures cleaningUp == old(cleaningUp) && r == !old(cleaningUp)
      ensures docker.containers == if old(cleaningUp) then old(docker.containers)
                                   else old(docker.containers) - {Sync, Validator}
    {
      if !cleaningUp {
        cleaningUp := true;
        var sync := docker.RemoveContainer(Sync);
        var validator := docker.RemoveContainer(Validator);
        assert docker.containers == old(docker.containers) - {Sync, Validator};
      } else {
        return false;
      }
      cleaningUp := false;
      return true;
    }

    /** `simulated` is the test setting, `healthy` the answer about peers and synchronization. */
    method IsServiceReadyToStart(simulated: bool, healthy: bool) returns (r: bool)
      ensures r <==> simulated || (healthy && |importedKeys| >= KEYS)
    {
      if simulated {
        return true;
      }
      if !healthy {
        return false;
      }
      return |importedKeys| >= KEYS;
    }
  }

  class Service {
    const instance: Polkadot
    var mode: Mode

    constructor (instance: Polkadot)
      ensures this.instance == instance && mode == Idle
    {
      this.instance, mode := instance, Idle;
    }

    /** The mode is set before anything is started. */
    method ServiceStart(mode: Mode, image: bool, answers: seq<KeyAnswer>) returns (r: StartResult)
      requires instance.Valid() && |answers| == KEYS
      modifies this, instance`importedKeys, instance.docker
      ensures this.mode == mode
      ensures mode.Idle? ==> r.UnknownMode? && instance.docker.containers == old(instance.docker.containers)
      ensures !mode.Idle? ==>
                && r.Handled?
                && instance.docker.containers == Started(old(instance.docker.containers), mode, image)
                && (r.changed <==> !Running(old(instance.docker.containers), UpName(mode)) && image)
    {
      this.mode := mode;
      r := instance.Start(mode, image, answers);
    }
  }

  // ---------- what starting achieves ----------

  predicate Both(c: Store) {
    Validator in c && Sync in c
  }

  /** Exactly the container of the mode is there, and it runs. */
  predicate Only(c: Store, mode: Mode) {
    Running(c, UpName(mode)) && DownName(mode) !in c
  }

  /** From any store, starting a mode leaves exactly its container if and only if the container was running
      without the other one, or was not running and there is an image. Other containers are left alone. */
  lemma StartIsExact(c: Store, mode: Mode, image: bool)
    requires !mode.Idle?
    ensures Only(Started(c, mode, image), mode) <==>
            if Running(c, UpName(mode)) then DownName(mode) !in c else image
    ensures Only(Started(c, mode, image), mode) ==> Launched(Started(c, mode, image)) == mode
    ensures Running(c, Validator) && mode.Active? ==> Launched(Started(c, mode, image)).Active?
    ensures forall id :: Lookup(Started(c, mode, image), Other(id)) == Lookup(c, Other(id))
  {
  }

  datatype Op = StartOp(mode: Mode, image: bool) | CleanUpOp

  function StoreAfter(c: Store, op: Op): Store {
    match op
    case StartOp(mode, image) => if mode.Idle? then c else Started(c, mode, image)
    case CleanUpOp => c - {Sync, Validator}
  }

  function RunOps(c: Store, ops: seq<Op>): Store {
    if ops == [] then c else StoreAfter(RunOps(c, ops[..|ops| - 1]), ops[|ops| - 1])
  }

  /** Whatever is started and cleaned up one after the other, the two containers never exist together, and after
      a start that had an image the launched container is that of the mode asked for. */
  lemma {:induction false} NeverBoth(c: Store, ops: seq<Op>)
    requires !Both(c)
    ensures !Both(RunOps(c, ops))
    ensures ops != [] && ops[|ops| - 1].StartOp? && !ops[|ops| - 1].mode.Idle? && ops[|ops| - 1].image ==>
              Only(RunOps(c, ops), ops[|ops| - 1].mode) && Launched(RunOps(c, ops)) == ops[|ops| - 1].mode
  {
    if ops != [] {
      NeverBoth(c, ops[..|ops| - 1]);
      var before, op := RunOps(c, ops[..|ops| - 1]), ops[|ops| - 1];
      if op.StartOp? && !op.mode.Idle? {
        StartIsExact(before, op.mode, op.image);
      }
    }
  }
}
