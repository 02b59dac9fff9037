/** `check_vm` of lib/check/vm.py: requests a qemu guest's current status
    through `api_request` and maps the payload to the `vm` section plus one
    optional section per optional part of the payload. */
module Vm {
  import opened Results
  import opened Values
  import opened Helpers
  import opened Utils
  import opened Sections

  const StatusUri: string := "/status/current"

  /** The fields of a `vm` item after `cpu`, each with the payload field it holds. */
  const VmFields: seq<(string, string)> :=
    Same(["cpus", "disk", "diskread", "diskwrite", "freemem", "maxdisk", "maxmem", "mem",
          "netin", "netout", "pid", "qmpstatus"])
    + [("running_machine", "running-machine"), ("running_qemu", "running-qemu")]
    + Same(["status", "uptime"])

  /** The single item of the `vm` section. `vm['vmid']` and `vm['status']` hold
      the same values as `vm.get(...)` once they are known to be present. */
  function VmItem(vm: Dict): (r: Result<Record>)
    // `vmid` and `status` are mandatory and `cpu` must be a number; the
    // fields are evaluated in order: vmid, cpu, status.
    ensures r.Ok? <==> Lookup(vm, "vmid").Some? && Lookup(vm, "status").Some?
                       && Numeric(GetOr(vm, "cpu", Int(0))).Some?
    ensures Lookup(vm, "vmid").None? ==> r == Err(KeyError("vmid"))
    ensures Lookup(vm, "vmid").Some? && Numeric(GetOr(vm, "cpu", Int(0))).None? ==> r == Err(TypeError)
    ensures Lookup(vm, "vmid").Some? && Numeric(GetOr(vm, "cpu", Int(0))).Some? && Lookup(vm, "status").None?
            ==> r == Err(KeyError("status"))
    ensures r.Ok? ==>
              && |r.value| == 5 + |VmFields|
              // `name` may be None, `agent` is the truthiness of the payload's,
              && r.value[0] == ("name", Get(vm, "name"))
              && r.value[1] == ("vmid", Get(vm, "vmid"))
              && r.value[2] == ("agent", Bool(Truthy(Get(vm, "agent"))))
              && r.value[3] == ("balloon", Get(vm, "balloon"))
              // `cpu` is the payload's fraction as a percentage, 0 when missing,
              && r.value[4] == ("cpu", Float(100.0 * Numeric(GetOr(vm, "cpu", Int(0))).value))
              // and every other field is a copy of its payload field.
              && forall i :: 0 <= i < |VmFields| ==> r.value[5 + i] == (VmFields[i].0, Get(vm, VmFields[i].1))
    ensures r.Ok? && Lookup(vm, "agent").None? ==> r.value[2].1 == Bool(false)
    ensures r.Ok? && Lookup(vm, "cpu").None? ==> r.value[4].1 == Float(0.0)
  {
    if Lookup(vm, "vmid").None? then Err(KeyError("vmid"))
    else if TimesHundred(GetOr(vm, "cpu", Int(0))).Err? then Err(TypeError)
    else if Lookup(vm, "status").None? then Err(KeyError("status"))
    else
      var cpu := TimesHundred(GetOr(vm, "cpu", Int(0))).value;
      Ok([("name", Get(vm, "name")),
          ("vmid", Get(vm, "vmid")),
          ("agent", Bool(Truthy(Get(vm, "agent")))),
          ("balloon", Get(vm, "balloon")),
          ("cpu", cpu)]
         + Copied(vm, VmFields))
  }

  /** The balloon driver's fields, copied under their own names. */
  const BalloonFields: seq<(string, string)> :=
    Same(["free_mem", "major_page_faults", "last_update", "minor_page_faults", "mem_swapped_out",
          "actual", "max_mem", "total_mem", "mem_swapped_in"])

  /** The `ballooninfo` item once both percentages are known. */
  function BalloonItem(b: Dict, used: Value, usedActual: Value): (r: Record)
    ensures |r| == 3 + |BalloonFields|
    ensures r[0] == ("name", Str("ballooninfo"))
    ensures forall i :: 0 <= i < |BalloonFields| ==> r[1 + i] == (BalloonFields[i].0, Get(b, BalloonFields[i].1))
    ensures r[1 + |BalloonFields|] == ("percent_used", used)
    ensures r[2 + |BalloonFields|] == ("percent_used_actual", usedActual)
  {
    [("name", Str("ballooninfo"))] + Copied(b, BalloonFields)
    + [("percent_used", used), ("percent_used_actual", usedActual)]
  }

  /** The single item of the `ballooninfo` section. */
  function BalloonRecord(balloon: Value): (r: Result<Record>)
    ensures !balloon.Dict? ==> r == Err(AttributeError)
    ensures balloon.Dict? ==>
              var b := balloon.entries;
              var used := PercentUsed(Get(b, "total_mem"), Get(b, "free_mem"));
              var usedActual := PercentUsed(Get(b, "actual"), Get(b, "free_mem"));
              && (r.Ok? <==> used.Ok? && usedActual.Ok?)
              && (r.Ok? ==>
                    && |r.value| == 3 + |BalloonFields|
                    // named after the section,
                    && r.value[0] == ("name", Str("ballooninfo"))
                    // the driver's fields copied,
                    && (forall i :: 0 <= i < |BalloonFields| ==> r.value[1 + i] == (BalloonFields[i].0, Get(b, BalloonFields[i].1)))
                    // and the used share of total_mem and of actual.
                    && r.value[1 + |BalloonFields|] == ("percent_used", used.value)
                    && r.value[2 + |BalloonFields|] == ("percent_used_actual", usedActual.value))
              // `percent_used` is computed first; either computation's error is raised.
              && (used.Err? ==> r == Err(used.error))
              && (used.Ok? && usedActual.Err? ==> r == Err(usedActual.error))
              // Both raise only TypeError, on a non-numeric operand.
              && (r.Err? ==> r.error == TypeError)
  {
    if !balloon.Dict? then Err(AttributeError)
    else
      var b := balloon.entries;
      var used :- PercentUsed(Get(b, "total_mem"), Get(b, "free_mem"));
      var usedActual :- PercentUsed(Get(b, "actual"), Get(b, "free_mem"));
      Ok(BalloonItem(b, used, usedActual))
  }

  /** The fields of a `blockstat` item after `name`. `timed_stats` holds the
      payload's `rd_total_time_ns`, exactly as the source has it. */
  const BlockstatFields: seq<(string, string)> :=
    Same(["account_failed", "account_invalid", "failed_flush_operations", "failed_rd_operations",
          "failed_unmap_operations", "failed_wr_operations", "failed_zone_append_operations",
          "flush_operations", "flush_total_time_ns", "idle_time_ns", "invalid_flush_operations",
          "invalid_rd_operations", "invalid_unmap_operations", "invalid_wr_operations",
          "invalid_zone_append_operations", "rd_bytes", "rd_merged", "rd_operations",
          "rd_total_time_ns"])
    + [("timed_stats", "rd_total_time_ns")]
    + Same(["unmap_bytes", "unmap_merged", "unmap_operations", "unmap_total_time_ns", "wr_bytes",
            "wr_highest_offset", "wr_merged", "wr_operations", "wr_total_time_ns",
            "zone_append_bytes", "zone_append_merged", "zone_append_operations",
            "zone_append_total_time_ns"])

  /** The comprehension over `blockstat.items()`. */
  function BlockstatRecords(blockstat: Dict): (r: Result<seq<Record>>)
    // Every device entry must be a dict (`n.get` on anything else raises) ...
    ensures r.Ok? <==> forall i :: 0 <= i < |blockstat| ==> blockstat[i].1.Dict?
    ensures r.Err? ==> r.error == AttributeError
    // ... and each gives one record, in order, named by its key.
    ensures r.Ok? ==>
              && |r.value| == |blockstat|
              && forall i :: 0 <= i < |blockstat| ==>
                   && blockstat[i].1.Dict?
                   && r.value[i] == [("name", Str(blockstat[i].0))] + Copied(blockstat[i].1.entries, BlockstatFields)
  {
    if |blockstat| == 0 then Ok([])
    else
      var (name, n) := blockstat[0];
      if !n.Dict? then Err(AttributeError)
      else
        var rest :- BlockstatRecords(blockstat[1..]);
        Ok([[("name", Str(name))] + Copied(n.entries, BlockstatFields)] + rest)
  }

  /** The single item of the `ha` section. */
  function HaRecord(ha: Value): (r: Result<Record>)
    ensures r.Ok? <==> ha.Dict?
    ensures r.Err? ==> r.error == AttributeError
    // `managed` is the truthiness of the payload's, so false when it is missing.
    ensures r.Ok? ==> r.value == [("name", Str("ha")), ("managed", Bool(Truthy(Get(ha.entries, "managed"))))]
    ensures r.Ok? && Lookup(ha.entries, "managed").None? ==> r.value[1] == ("managed", Bool(false))
  {
    if !ha.Dict? then Err(AttributeError)
    else Ok([("name", Str("ha")), ("managed", Bool(Truthy(Get(ha.entries, "managed"))))])
  }

  /** The fields of the `proxmox_support` item after `name`. */
  const SupportFields: seq<(string, string)> := [
    ("backup_fleecing", "backup-fleecing"), ("backup_max_workers", "backup-max-workers"),
    ("pbs_dirty_bitmap", "pbs-dirty-bitmap"), ("pbs_dirty_bitmap_migration", "pbs-dirty-bitmap-migration"),
    ("pbs_dirty_bitmap_savevm", "pbs-dirty-bitmap-savevm"), ("pbs_library_version", "pbs-library-version"),
    ("pbs_masterkey", "pbs-masterkey"), ("query_bitmap_info", "query-bitmap-info")]

  /** The single item of the `proxmox_support` section. */
  function SupportRecord(support: Value): (r: Result<Record>)
    ensures r.Ok? <==> support.Dict?
    ensures r.Err? ==> r.error == AttributeError
    ensures r.Ok? ==>
              && |r.value| == 1 + |SupportFields|
              && r.value[0] == ("name", Str("proxmox_support"))
              && forall i :: 0 <= i < |SupportFields| ==>
                   r.value[1 + i] == (SupportFields[i].0, Get(support.entries, SupportFields[i].1))
  {
    if !support.Dict? then Err(AttributeError)
    else Ok([("name", Str("proxmox_support"))] + Copied(support.entries, SupportFields))
  }

  /** The `ballooninfo` section: its one item. */
  function BalloonSection(balloon: Value): (r: Result<seq<Record>>)
    ensures r.Ok? <==> BalloonRecord(balloon).Ok?
    ensures r.Ok? ==> r.value == [BalloonRecord(balloon).value]
    ensures r.Err? ==> r.error == BalloonRecord(balloon).error
  {
    var record :- BalloonRecord(balloon);
    Ok([record])
  }

  /** The `blockstat` section: one item per device; `blockstat.items()` on
      anything but a dict raises. */
  function BlockstatSection(blockstat: Value): (r: Result<seq<Record>>)
    ensures r.Ok? <==> blockstat.Dict? && BlockstatRecords(blockstat.entries).Ok?
    ensures r.Ok? ==> r.value == BlockstatRecords(blockstat.entries).value
    ensures r.Err? ==> r.error == AttributeError
  {
    if !blockstat.Dict? then Err(AttributeError) else BlockstatRecords(blockstat.entries)
  }

  /** The `ha` section: its one item. */
  function HaSection(ha: Value): (r: Result<seq<Record>>)
    ensures r.Ok? <==> ha.Dict?
    ensures r.Ok? ==> r.value == [HaRecord(ha).value]
    ensures r.Err? ==> r.error == AttributeError
  {
    var record :- HaRecord(ha);
    Ok([record])
  }

  /** The `proxmox_support` section: its one item. */
  function SupportSection(support: Value): (r: Result<seq<Record>>)
    ensures r.Ok? <==> support.Dict?
    ensures r.Ok? ==> r.value == [SupportRecord(support).value]
    ensures r.Err? ==> r.error == AttributeError
  {
    var record :- SupportRecord(support);
    Ok([record])
  }

  /** The `nics` section: one item per interface; `nics.items()` on anything
      but a dict raises. */
  function NicsSection(nics: Value): (r: Result<seq<Record>>)
    ensures r.Ok? <==> nics.Dict? && NicRecords(nics.entries).Ok?
    ensures r.Ok? ==> r.value == NicRecords(nics.entries).value
    ensures !nics.Dict? ==> r == Err(AttributeError)
    // A rejected interface raises what the comprehension raises for it.
    ensures nics.Dict? && r.Err? ==> NicRecords(nics.entries).Err? && r.error == NicRecords(nics.entries).error
  {
    if !nics.Dict? then Err(AttributeError) else NicRecords(nics.entries)
  }

  /** An optional section: its name in the state, the payload it is built
      from, and what building it yields. */
  datatype Section = Section(name: string, payload: Value, built: Result<seq<Record>>)

  /** The optional sections in the order `check_vm` inserts them. */
  function OptionalSections(vm: Dict): (r: seq<Section>)
    ensures |r| == 5
    // No two sections share a name, and none is called `vm`.
    ensures forall i, j :: 0 <= i < j < |r| ==> r[i].name != r[j].name
    ensures forall i :: 0 <= i < |r| ==> r[i].name != "vm"
  {
    [Section("ballooninfo", Get(vm, "ballooninfo"), BalloonSection(Get(vm, "ballooninfo"))),
     Section("blockstat", Get(vm, "blockstat"), BlockstatSection(Get(vm, "blockstat"))),
     Section("ha", Get(vm, "ha"), HaSection(Get(vm, "ha"))),
     Section("proxmox_support", Get(vm, "proxmox-support"), SupportSection(Get(vm, "proxmox-support"))),
     Section("nics", Get(vm, "nics"), NicsSection(Get(vm, "nics")))]
  }

  /** One guarded insertion: the section is added under its name when its
      payload is not None, and building it may raise. */
  function Insert(state: State, section: Section): (r: Result<State>)
    ensures section.payload == Null ==> r == Ok(state)
    ensures section.payload != Null && section.built.Ok? ==> r == Ok(state[section.name := section.built.value])
    ensures section.payload != Null && section.built.Err? ==> r == Err(section.built.error)
  {
    if section.payload == Null then Ok(state)
    else
      var records :- section.built;
      Ok(state[section.name := records])
  }

  /** The guarded insertions one after another: the first section whose
      building raises ends the check with that error. */
  function IncludeAll(state: Result<State>, sections: seq<Section>): (r: Result<State>)
    // An error already raised is the check's result.
    ensures state.Err? ==> r == state
    decreases |sections|
  {
    if |sections| == 0 then state
    else
      var s :- state;
      IncludeAll(Insert(s, sections[0]), sections[1..])
  }

  /** The state `check_vm` returns for the guest object `vm`. */
  function VmState(vm: Dict): (r: Result<State>)
    // A payload without `vmid` raises KeyError('vmid') before anything else.
    ensures Lookup(vm, "vmid").None? ==> r == Err(KeyError("vmid"))
    // Whatever building the `vm` item raises (KeyError on vmid or status,
    // TypeError on cpu) is raised before any optional section is looked at.
    ensures VmItem(vm).Err? ==> r == Err(VmItem(vm).error)
  {
    var item :- VmItem(vm);
    IncludeAll(Ok(map["vm" := [item]]), OptionalSections(vm))
  }

  /** The insertions succeed exactly when every present section builds. */
  lemma {:induction false} IncludeAllOk(state: Result<State>, sections: seq<Section>)
    ensures IncludeAll(state, sections).Ok?
            <==> state.Ok? && forall i :: 0 <= i < |sections| && sections[i].payload != Null ==> sections[i].built.Ok?
    decreases |sections|
  {
    if |sections| > 0 && state.Ok? {
      IncludeAllOk(Insert(state.value, sections[0]), sections[1..]);
      assert forall i :: 1 <= i < |sections| ==> sections[i] == sections[1..][i - 1];
    }
  }

  /** When they fail, the error is that of the first present section that
      does not build. */
  lemma {:induction false} IncludeAllError(state: State, sections: seq<Section>)
    requires IncludeAll(Ok(state), sections).Err?
    ensures exists i :: 0 <= i < |sections| && sections[i].payload != Null && sections[i].built.Err?
                        && IncludeAll(Ok(state), sections).error == sections[i].built.error
                        && forall j :: 0 <= j < i && sections[j].payload != Null ==> sections[j].built.Ok?
    decreases |sections|
  {
    var next := Insert(state, sections[0]);
    if next.Ok? {
      IncludeAllError(next.value, sections[1..]);
      var i :| 0 <= i < |sections[1..]| && sections[1..][i].payload != Null && sections[1..][i].built.Err?
               && IncludeAll(next, sections[1..]).error == sections[1..][i].built.error
               && forall j :: 0 <= j < i && sections[1..][j].payload != Null ==> sections[1..][j].built.Ok?;
      assert sections[i + 1] == sections[1..][i];
      assert forall j :: 1 <= j < i + 1 ==> sections[j] == sections[1..][j - 1];
    } else {
      assert IncludeAll(next, sections[1..]) == next by {
        if |sections| > 1 { }
      }
    }
  }

  /** The state gains exactly the names of the present sections. */
  lemma {:induction false} IncludeAllKeys(state: State, sections: seq<Section>)
    requires IncludeAll(Ok(state), sections).Ok?
    ensures IncludeAll(Ok(state), sections).value.Keys
            == state.Keys + set i | 0 <= i < |sections| && sections[i].payload != Null :: sections[i].name
    decreases |sections|
  {
    if |sections| > 0 {
      var next := Insert(state, sections[0]);
      IncludeAllKeys(next.value, sections[1..]);
      var rest := set i | 0 <= i < |sections[1..]| && sections[1..][i].payload != Null :: sections[1..][i].name;
      var all := set i | 0 <= i < |sections| && sections[i].payload != Null :: sections[i].name;
      assert all == (if sections[0].payload != Null then {sections[0].name} else {}) + rest by {
        forall k | k in all ensures k in (if sections[0].payload != Null then {sections[0].name} else {}) + rest {
          var i :| 0 <= i < |sections| && sections[i].payload != Null && sections[i].name == k;
          if i > 0 {
            assert sections[1..][i - 1] == sections[i];
          }
        }
        forall k | k in rest ensures k in all {
          var i :| 0 <= i < |sections[1..]| && sections[1..][i].payload != Null && sections[1..][i].name == k;
          assert sections[i + 1] == sections[1..][i];
        }
      }
    }
  }

  /** A present section that no later section overwrites holds what it built. */
  lemma {:induction false} IncludeAllValue(state: State, sections: seq<Section>, i: nat)
    requires IncludeAll(Ok(state), sections).Ok?
    requires i < |sections| && sections[i].payload != Null
    requires forall j :: i < j < |sections| ==> sections[j].name != sections[i].name
    ensures sections[i].built.Ok?
    ensures sections[i].name in IncludeAll(Ok(state), sections).value
    ensures IncludeAll(Ok(state), sections).value[sections[i].name] == sections[i].built.value
    decreases |sections|
  {
    IncludeAllOk(Ok(state), sections);
    var next := Insert(state, sections[0]);
    if i == 0 {
      IncludeAllKeeps(next.value, sections[1..], sections[0].name);
    } else {
      IncludeAllValue(next.value, sections[1..], i - 1);
    }
  }

  /** A name no section uses keeps the value it had. */
  lemma {:induction false} IncludeAllKeeps(state: State, sections: seq<Section>, k: string)
    requires IncludeAll(Ok(state), sections).Ok?
    requires k in state && forall j :: 0 <= j < |sections| ==> sections[j].name != k
    ensures k in IncludeAll(Ok(state), sections).value && IncludeAll(Ok(state), sections).value[k] == state[k]
    decreases |sections|
  {
    if |sections| > 0 {
      var next := Insert(state, sections[0]);
      assert forall j :: 0 <= j < |sections[1..]| ==> sections[1..][j] == sections[j + 1];
      IncludeAllKeeps(next.value, sections[1..], k);
    }
  }

  /** The first insertion, then the rest. */
  lemma IncludeAllStep(state: State, sections: seq<Section>)
    requires |sections| > 0
    ensures IncludeAll(Ok(state), sections) == IncludeAll(Insert(state, sections[0]), sections[1..])
  {
  }

  /** A state is produced exactly when the `vm` item and every present
      optional section build. */
  lemma VmStateOk(vm: Dict)
    ensures VmState(vm).Ok?
            <==> VmItem(vm).Ok?
                 && forall i :: 0 <= i < |OptionalSections(vm)| && OptionalSections(vm)[i].payload != Null ==>
                      OptionalSections(vm)[i].built.Ok?
  {
    if VmItem(vm).Ok? {
      IncludeAllOk(Ok(map["vm" := [VmItem(vm).value]]), OptionalSections(vm));
    }
  }

  /** The state has `vm` and the optional sections whose payload is not
      None, and nothing else. */
  lemma VmStateKeys(vm: Dict)
    ensures VmState(vm).Ok? ==>
              VmState(vm).value.Keys
              == {"vm"} + set i | 0 <= i < |OptionalSections(vm)| && OptionalSections(vm)[i].payload != Null
                            :: OptionalSections(vm)[i].name
  {
    if VmState(vm).Ok? {
      IncludeAllKeys(map["vm" := [VmItem(vm).value]], OptionalSections(vm));
    }
  }

  /** A payload that fails after the `vm` item raises what the first present
      optional section that does not build raises. */
  lemma VmStateError(vm: Dict)
    requires VmItem(vm).Ok? && VmState(vm).Err?
    ensures var sections := OptionalSections(vm);
            exists i :: 0 <= i < |sections| && sections[i].payload != Null && sections[i].built.Err?
                        && VmState(vm).error == sections[i].built.error
                        && forall j :: 0 <= j < i && sections[j].payload != Null ==> sections[j].built.Ok?
  {
    IncludeAllError(map["vm" := [VmItem(vm).value]], OptionalSections(vm));
  }

  /** The `vm` section holds the one item. */
  lemma VmStateItem(vm: Dict)
    ensures VmState(vm).Ok? ==>
              VmItem(vm).Ok? && "vm" in VmState(vm).value && VmState(vm).value["vm"] == [VmItem(vm).value]
  {
    if VmState(vm).Ok? {
      IncludeAllKeeps(map["vm" := [VmItem(vm).value]], OptionalSections(vm), "vm");
    }
  }

  /** Each present optional section holds what its payload maps to. */
  lemma VmStateSection(vm: Dict, i: nat)
    requires VmState(vm).Ok? && i < |OptionalSections(vm)| && OptionalSections(vm)[i].payload != Null
    ensures var section := OptionalSections(vm)[i];
            && section.built.Ok?
            && section.name in VmState(vm).value
            && VmState(vm).value[section.name] == section.built.value
  {
    IncludeAllValue(map["vm" := [VmItem(vm).value]], OptionalSections(vm), i);
  }

  /** The guarded insertion of the `ballooninfo` section. */
  method AddBalloon(state: State, balloon: Value) returns (r: Result<State>)
    ensures r == Insert(state, Section("ballooninfo", balloon, BalloonSection(balloon)))
  {
    if balloon != Null {
      var record :- BalloonRecord(balloon);
      return Ok(state["ballooninfo" := [record]]);
    }
    return Ok(state);
  }

  /** The guarded insertion of the `blockstat` section. */
  method AddBlockstat(state: State, blockstat: Value) returns (r: Result<State>)
    ensures r == Insert(state, Section("blockstat", blockstat, BlockstatSection(blockstat)))
  {
    if blockstat != Null {
      if !blockstat.Dict? {
        return Err(AttributeError);
      }
      var records :- BlockstatRecords(blockstat.entries);
      return Ok(state["blockstat" := records]);
    }
    return Ok(state);
  }

  /** The guarded insertion of the `ha` section. */
  method AddHa(state: State, ha: Value) returns (r: Result<State>)
    ensures r == Insert(state, Section("ha", ha, HaSection(ha)))
  {
    if ha != Null {
      var record :- HaRecord(ha);
      return Ok(state["ha" := [record]]);
    }
    return Ok(state);
  }

  /** The guarded insertion of the `proxmox_support` section. */
  method AddSupport(state: State, support: Value) returns (r: Result<State>)
    ensures r == Insert(state, Section("proxmox_support", support, SupportSection(support)))
  {
    if support != Null {
      var record :- SupportRecord(support);
      return Ok(state["proxmox_support" := [record]]);
    }
    return Ok(state);
  }

  /** The guarded insertion of the `nics` section. */
  method AddNics(state: State, nics: Value) returns (r: Result<State>)
    ensures r == Insert(state, Section("nics", nics, NicsSection(nics)))
  {
    if nics != Null {
      if !nics.Dict? {
        return Err(AttributeError);
      }
      var records :- NicRecords(nics.entries);
      return Ok(state["nics" := records]);
    }
    return Ok(state);
  }

  /** The optional sections of `vm`, inserted one after another into `state`. */
  method AddSections(state: State, vm: Dict) returns (r: Result<State>)
    ensures r == IncludeAll(Ok(state), OptionalSections(vm))
  {
    var current := state;
    // What is left to insert, in order.
    ghost var sections := OptionalSections(vm);
    IncludeAllStep(current, sections);
    current :- AddBalloon(current, Get(vm, "ballooninfo"));
    IncludeAllStep(current, sections[1..]);
    current :- AddBlockstat(current, Get(vm, "blockstat"));
    IncludeAllStep(current, sections[2..]);
    current :- AddHa(current, Get(vm, "ha"));
    IncludeAllStep(current, sections[3..]);
    current :- AddSupport(current, Get(vm, "proxmox-support"));
    IncludeAllStep(current, sections[4..]);
    current :- AddNics(current, Get(vm, "nics"));
    assert sections[5..] == [];
    return Ok(current);
  }

  /** Builds the state from the guest object: the `vm` section first, then
      each optional section whose payload is not None, in turn. */
  method BuildState(vm: Dict) returns (r: Result<State>)
    ensures r == VmState(vm)
  {
    var item :- VmItem(vm);
    r := AddSections(map["vm" := [item]], vm);
  }

  /** The whole check, with the HTTP exchange replaced by its decoded JSON
      body `response`. */
  method CheckVm(assetName: string, assetConfig: Dict, config: Dict, response: Value) returns (r: Result<State>)
    // Every `api_request` error is raised before the payload is looked at.
    ensures ApiRequest(assetName, assetConfig, config, StatusUri, "qemu").Err? ==>
              r == Err(ApiRequest(assetName, assetConfig, config, StatusUri, "qemu").error)
    ensures ApiRequest(assetName, assetConfig, config, StatusUri, "qemu").Ok? && GuestObject(response).Err? ==>
              r == Err(GuestObject(response).error)
    // Otherwise the state is the one the guest object maps to.
    ensures ApiRequest(assetName, assetConfig, config, StatusUri, "qemu").Ok? && GuestObject(response).Ok? ==>
              r == VmState(GuestObject(response).value)
  {
    var request := ApiRequest(assetName, assetConfig, config, StatusUri, "qemu");
    if request.Err? {
      return Err(request.error);
    }
    // The GET itself is not modelled: `response` is the body it returned.
    var vm :- GuestObject(response);
    r := BuildState(vm);
  }
}
