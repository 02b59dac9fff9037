/** Pieces of payload handling that lib/check/proxmoxguest.py and
    lib/check/vm.py write out identically: taking the guest object out of the
    response envelope, and turning the `nics` dictionary into one record per
    interface. */
module Sections {
  import opened Results
  import opened Values

  /** `vm = data['data']` followed by a first `vm.get(...)`: the guest object,
      which must be a dict. */
  function GuestObject(data: Value): (r: Result<Dict>)
    ensures r.Ok? <==> data.Dict? && Lookup(data.entries, "data").Some? && Lookup(data.entries, "data").value.Dict?
    ensures r.Ok? ==> Dict(r.value) == Get(data.entries, "data")
    ensures !data.Dict? ==> r == Err(TypeError)
    ensures data.Dict? && Lookup(data.entries, "data").None? ==> r == Err(KeyError("data"))
    ensures data.Dict? && Lookup(data.entries, "data").Some? && !Lookup(data.entries, "data").value.Dict?
            ==> r == Err(AttributeError)
  {
    var vm :- Subscript(data, "data");
    if vm.Dict? then Ok(vm.entries) else Err(AttributeError)
  }

  /** An interface entry the nic comprehension accepts: a dict with both counters. */
  predicate NicEntryOk(n: Value) {
    Subscript(n, "netin").Ok? && Subscript(n, "netout").Ok?
  }

  /** What `n['netin']` and then `n['netout']` raise for a rejected entry. */
  function NicEntryError(n: Value): Error
    requires !NicEntryOk(n)
  {
    if Subscript(n, "netin").Err? then Subscript(n, "netin").error else Subscript(n, "netout").error
  }

  /** One interface's record. */
  function NicRecord(name: string, netin: Value, netout: Value): (r: Record)
    ensures Keys(r) == ["name", "netin", "netout"]
    ensures r[0].1 == Str(name) && r[1].1 == netin && r[2].1 == netout
  {
    [("name", Str(name)), ("netin", netin), ("netout", netout)]
  }

  /** Every record of `records` is the one its interface in `nics` yields. */
  predicate RecordsOfNics(nics: Dict, records: seq<Record>) {
    && |records| == |nics|
    && forall i :: 0 <= i < |nics| ==>
         && NicEntryOk(nics[i].1)
         && records[i] == NicRecord(nics[i].0, Subscript(nics[i].1, "netin").value,
                                    Subscript(nics[i].1, "netout").value)
  }

  /** Prepending the first interface's record to the records of the others. */
  lemma NicRecordsCons(nics: Dict, records: seq<Record>)
    requires |nics| > 0 && NicEntryOk(nics[0].1) && |records| > 0
    requires records[0] == NicRecord(nics[0].0, Subscript(nics[0].1, "netin").value,
                                     Subscript(nics[0].1, "netout").value)
    requires RecordsOfNics(nics[1..], records[1..])
    ensures RecordsOfNics(nics, records)
  {
    forall i | 1 <= i < |nics|
      ensures NicEntryOk(nics[i].1)
      ensures records[i] == NicRecord(nics[i].0, Subscript(nics[i].1, "netin").value,
                                      Subscript(nics[i].1, "netout").value)
    {
      assert nics[i] == nics[1..][i - 1] && records[i] == records[1..][i - 1];
    }
  }

  /** The comprehension over the interfaces: one record per entry of `nics`,
      named by its key and holding the entry's two counters. */
  function NicRecords(nics: Dict): (r: Result<seq<Record>>)
    // The comprehension succeeds exactly when every entry has both counters ...
    ensures r.Ok? <==> forall i :: 0 <= i < |nics| ==> NicEntryOk(nics[i].1)
    // ... and then yields one record per entry, in order, named by the entry's key.
    ensures r.Ok? ==> RecordsOfNics(nics, r.value)
    // Otherwise it raises what the first rejected entry raises.
    ensures r.Err? ==>
              exists i :: 0 <= i < |nics| && !NicEntryOk(nics[i].1) && r.error == NicEntryError(nics[i].1)
                          && forall j :: 0 <= j < i ==> NicEntryOk(nics[j].1)
  {
    if |nics| == 0 then Ok([])
    else
      var (name, n) := nics[0];
      if !NicEntryOk(n) then Err(NicEntryError(n))
      else
        var rest :- NicRecords(nics[1..]);
        var records := [NicRecord(name, Subscript(n, "netin").value, Subscript(n, "netout").value)] + rest;
        NicRecordsCons(nics, records);
        Ok(records)
  }

}
