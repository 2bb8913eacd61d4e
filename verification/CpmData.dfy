/**
  Reading cyclic data: the search for the descriptor of a sub-slot, and the two reads that begin
  with it.  The driver that holds the received frames is an abstract partner.
*/
module CpmData {
  import opened Wrappers
  import opened CpmLifeCycle

  const OUTPUT := 2
  const MC_CONSUMER := 4

  datatype SubslotId = SubslotId(api: nat, slot: nat, subslot: nat)

  datatype Descriptor = Descriptor(inUse: bool, id: SubslotId, dataLength: nat, iopsLength: nat, iocsLength: nat)

  /** An IO communication relation with its descriptors and the state of its consumer. */
  datatype Iocr = Iocr(iocrType: nat, descs: seq<Descriptor>, state: CpmState)

  predicate Consumes(iocr: Iocr) {
    iocr.iocrType == OUTPUT || iocr.iocrType == MC_CONSUMER
  }

  predicate Matches(iocrs: seq<Iocr>, id: SubslotId, c: nat, k: nat) {
    c < |iocrs| && Consumes(iocrs[c]) && k < |iocrs[c].descs| && iocrs[c].descs[k].inUse && iocrs[c].descs[k].id == id
  }

  predicate Before(c1: nat, k1: nat, c2: nat, k2: nat) {
    c1 < c2 || (c1 == c2 && k1 < k2)
  }

  /** The lexicographically first match. */
  ghost predicate FirstMatch(iocrs: seq<Iocr>, id: SubslotId, c: nat, k: nat) {
    Matches(iocrs, id, c, k) && forall c': nat, k': nat :: Matches(iocrs, id, c', k') ==> !Before(c', k', c, k)
  }

  ghost predicate NoMatch(iocrs: seq<Iocr>, id: SubslotId) {
    forall c: nat, k: nat :: !Matches(iocrs, id, c, k)
  }

  lemma FirstMatchUnique(iocrs: seq<Iocr>, id: SubslotId, c1: nat, k1: nat, c2: nat, k2: nat)
    requires FirstMatch(iocrs, id, c1, k1) && FirstMatch(iocrs, id, c2, k2)
    ensures c1 == c2 && k1 == k2
  {
    assert !Before(c1, k1, c2, k2) && !Before(c2, k2, c1, k1);
  }

  /** An AR, with the error it reports. */
  class Ar {
    var iocrs: seq<Iocr>
    var err: Option<(nat, nat)>

    constructor (iocrs: seq<Iocr>)
      ensures this.iocrs == iocrs && err == None
    {
      this.iocrs, err := iocrs, None;
    }
  }

  /** pf_cpm_get_ar_iocr_desc, for a sub-slot whose owning AR is `ar`, if any. */
  method GetArIocrDesc(ar: Ar?, id: SubslotId) returns (found: bool, c: nat, k: nat)
    ensures found ==> ar != null && FirstMatch(ar.iocrs, id, c, k)
    ensures !found ==> ar == null || NoMatch(ar.iocrs, id)
  {
    found, c, k := false, 0, 0;
    if ar != null {
      var crep := 0;
      while !found && crep < |ar.iocrs|
        invariant found ==> FirstMatch(ar.iocrs, id, c, k)
        invariant !found ==> crep <= |ar.iocrs|
        invariant !found ==> forall c': nat, k': nat :: Matches(ar.iocrs, id, c', k') ==> c' >= crep
      {
        if Consumes(ar.iocrs[crep]) {
          var iocr := ar.iocrs[crep];
          var ix := 0;
          while !found && ix < |iocr.descs|
            invariant found ==> FirstMatch(ar.iocrs, id, c, k)
            invariant !found ==> ix <= |iocr.descs| && forall k': nat :: Matches(ar.iocrs, id, crep, k') ==> k' >= ix
          {
            if iocr.descs[ix].inUse && iocr.descs[ix].id == id {
              c, k := crep, ix;
              found := true;
            }
            ix := ix + 1;
          }
        }
        crep := crep + 1;
      }
    }
  }

  /** What the driver answers when it is asked. */
  datatype Answer = Answer(ok: bool, isNew: bool, data: seq<nat>, status: seq<nat>)

  /** The caller's buffer sizes before a read of data and IOPS, and what the read makes of them. */
  datatype Buffers = Buffers(newFlag: bool, dataLen: nat, iopsLen: nat)

  /** The sub-slot has a descriptor, and this is the first. */
  ghost predicate Selected(ar: Ar?, id: SubslotId, c: nat, k: nat)
    reads ar
  {
    ar != null && FirstMatch(ar.iocrs, id, c, k)
  }

  predicate Fits(d: Descriptor, b: Buffers) {
    d.dataLength <= b.dataLen && d.iopsLength <= b.iopsLen
  }

  /** pf_cpm_get_data_and_iops; `asked` tells whether the driver was asked. */
  method GetDataAndIops(ar: Ar?, id: SubslotId, b: Buffers, answer: Answer) returns (ok: bool, b': Buffers, asked: bool)
    modifies ar
    ensures ar != null ==> ar.iocrs == old(ar.iocrs)
    // without a descriptor, or before activation, the caller's buffers are left alone
    ensures (ar == null || NoMatch(ar.iocrs, id)) ==> !ok && !asked && b' == b && (ar != null ==> ar.err == old(ar.err))
    ensures forall c: nat, k: nat :: Selected(ar, id, c, k) && ar.iocrs[c].state == WStart ==>
      !ok && !asked && b' == b && ar.err == Some((ERR_CPM, INVALID_STATE))
    // otherwise everything depends on the first matching descriptor alone
    ensures forall c: nat, k: nat :: Selected(ar, id, c, k) && ar.iocrs[c].state != WStart ==>
      var d := ar.iocrs[c].descs[k];
      && ar.err == old(ar.err)
      && (asked <==> Fits(d, b))
      && (ok <==> asked && answer.ok)
      && (ok ==> b' == Buffers(answer.isNew, d.dataLength, d.iopsLength))
      && (asked && !ok ==> b' == Buffers(answer.isNew, 0, 0))
      && (!asked ==> b' == Buffers(false, 0, b.iopsLen))
  {
    ok, b', asked := false, b, false;
    var found, c, k := GetArIocrDesc(ar, id);
    if found {
      forall c': nat, k': nat | Selected(ar, id, c', k')
        ensures c' == c && k' == k { FirstMatchUnique(ar.iocrs, id, c, k, c', k'); }
      var d := ar.iocrs[c].descs[k];
      match ar.iocrs[c].state {
        case WStart =>
          ar.err := Some((ERR_CPM, INVALID_STATE));
        case _ =>
          if b.dataLen < d.dataLength || b.iopsLen < d.iopsLength {
            b' := b'.(dataLen := 0, newFlag := false);
          } else {
            b' := b'.(dataLen := d.dataLength, iopsLen := d.iopsLength);
            asked := true;
            ok := answer.ok;
            b' := b'.(newFlag := answer.isNew);
            if !ok {
              b' := b'.(dataLen := 0, iopsLen := 0);
            }
          }
      }
    }
  }

  /** pf_cpm_get_iocs; a descriptor without IOCS is an error. */
  method GetIocs(ar: Ar?, id: SubslotId, len: nat, answer: Answer) returns (ok: bool, len': nat, asked: bool)
    modifies ar
    ensures ar != null ==> ar.iocrs == old(ar.iocrs)
    ensures (ar == null || NoMatch(ar.iocrs, id)) ==>
            !ok && !asked && len' == len && (ar != null ==> ar.err == old(ar.err))
    ensures forall c: nat, k: nat :: Selected(ar, id, c, k) && ar.iocrs[c].state == WStart ==>
      !ok && !asked && len' == len && ar.err == Some((ERR_CPM, INVALID_STATE))
    ensures forall c: nat, k: nat :: Selected(ar, id, c, k) && ar.iocrs[c].state != WStart ==>
      var d := ar.iocrs[c].descs[k];
      && ar.err == old(ar.err)
      && (asked <==> 0 < d.iocsLength <= len)
      && (ok <==> asked && answer.ok)
      && len' == (if asked then d.iocsLength else len)
  {
    ok, len', asked := false, len, false;
    var found, c, k := GetArIocrDesc(ar, id);
    if found {
      forall c': nat, k': nat | Selected(ar, id, c', k')
        ensures c' == c && k' == k { FirstMatchUnique(ar.iocrs, id, c, k, c', k'); }
      var d := ar.iocrs[c].descs[k];
      match ar.iocrs[c].state {
        case WStart =>
          ar.err := Some((ERR_CPM, INVALID_STATE));
        case _ =>
          if len < d.iocsLength {
          } else if d.iocsLength == 0 {
          } else {
            len' := d.iocsLength;
            asked := true;
            ok := answer.ok;
          }
      }
    }
  }
}
