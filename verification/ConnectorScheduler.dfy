/** `NixlConnectorScheduler`: what allocation, metadata building and the end of a request do to the
    scheduler's tables, against the producer protocol and the chunk labels. */
module ConnectorScheduler {
  import opened Wrappers
  import BlockPairing
  import ProducerState
  import ProducerProtocol
  import ChunkState

  type ReqId = string
  type Item = ChunkState.Item

  /** A request and its `kv_transfer_params`. `complete` says that engine, request id, host and port of the
      remote are all given. */
  class Request {
    const id: ReqId
    const hasParams: bool
    const remoteDecode: bool
    const remoteBlocks: Option<seq<nat>>
    const complete: bool
    var remotePrefill: bool
    ghost var triggered: nat            // how often a KV transfer was triggered for it

    constructor (id: ReqId, hasParams: bool, remoteDecode: bool, remoteBlocks: Option<seq<nat>>, complete: bool,
                 remotePrefill: bool)
      ensures this.id == id && this.hasParams == hasParams && this.remoteDecode == remoteDecode
      ensures this.remoteBlocks == remoteBlocks && this.complete == complete && this.remotePrefill == remotePrefill
      ensures triggered == 0 && OneTransfer()
    {
      this.id, this.hasParams, this.remoteDecode := id, hasParams, remoteDecode;
      this.remoteBlocks, this.complete, this.remotePrefill := remoteBlocks, complete, remotePrefill;
      triggered := 0;
    }

    /** At most one transfer: either it is still to be triggered, or it was, once. */
    ghost predicate OneTransfer()
      reads this
    {
      triggered + (if remotePrefill then 1 else 0) <= 1
    }

    /** `add_new_req_to_recv` finds every parameter it needs. */
    predicate Readable() {
      remoteBlocks.Some? && complete
    }
  }

  /** An entry of `_reqs_need_recv`. */
  datatype ToRecv = ToRecv(req: Request, blocks: seq<nat>)

  /** What one `build_connector_meta` hands to the workers. */
  datatype Metadata = Metadata(recv: map<ReqId, ToRecv>, save: seq<ChunkState.Chunk>, send: ProducerState.Meta,
                               register: seq<ChunkState.Registration>)

  class Scheduler {
    const useHostBuffer: bool
    const timeout: real
    var needRecv: map<ReqId, ToRecv>
    var labels: ChunkState.Labels
    var needSend: seq<ProducerState.Entry>
    var inBatch: set<ReqId>
    var notProcessed: set<ReqId>
    var registrations: seq<ChunkState.Registration>

    constructor (useHostBuffer: bool, timeout: real)
      ensures this.useHostBuffer == useHostBuffer && this.timeout == timeout
      ensures needRecv == map[] && labels == ChunkState.Labels({}, map[])
      ensures needSend == [] && inBatch == {} && notProcessed == {} && registrations == []
    {
      this.useHostBuffer, this.timeout := useHostBuffer, timeout;
      needRecv, labels := map[], ChunkState.Labels({}, map[]);
      needSend, inBatch, notProcessed, registrations := [], {}, {}, [];
    }

    /** The tables that the producer protocol tracks are those of `y`. */
    ghost predicate Shows(y: ProducerProtocol.System)
      reads this
    {
      needSend == y.needSend && inBatch == y.inBatch && notProcessed == y.notProcessed
    }

    /** A consumer registered with the listener. */
    method HandleConsumerRegistration(g: ChunkState.Registration)
      modifies this`registrations
      ensures registrations == old(registrations) + [g]
    {
      registrations := registrations + [g];
    }

    /** A request whose remote blocks allocation queues for receiving. */
    predicate Pulls(req: Request)
      reads req
    {
      && req.hasParams && !(useHostBuffer && req.remoteDecode) && req.remotePrefill
      && req.remoteBlocks.Some? && req.remoteBlocks.value != [] && req.complete
    }

    /** A remote prefill is queued for receiving with exactly the local blocks when there are external tokens,
        and with none on a full prefix hit. `ok` is false when the assertion that no external tokens were
        promised fails. */
    method UpdateStateAfterAlloc(req: Request, local: seq<nat>, external: nat, ghost y: ProducerProtocol.System,
                                 ghost c: ProducerProtocol.Config)
      returns (ok: bool)
      requires req.OneTransfer() && Shows(y)
      requires ProducerProtocol.ConfigOk(c)
      modifies this`needRecv, this`labels, this`inBatch, req
      ensures req.OneTransfer()
      ensures Shows(if req.hasParams && req.remoteDecode
                    then ProducerProtocol.Step(c, y, ProducerProtocol.Schedule(req.id)) else y)
      ensures labels == old(labels).(needSave := old(labels.needSave)
                + if req.hasParams && useHostBuffer && req.remoteDecode then {req.id} else {})
      ensures old(Pulls(req)) && external > 0 ==> req.id in needRecv && needRecv[req.id] == ToRecv(req, local)
      ensures old(Pulls(req)) && external == 0 ==> req.id in needRecv && needRecv[req.id] == ToRecv(req, [])
      ensures needRecv - {req.id} == old(needRecv) - {req.id}
      ensures !old(Pulls(req)) ==> needRecv == old(needRecv)
      ensures req.triggered == old(req.triggered) + if old(Pulls(req)) then 1 else 0
      ensures req.remotePrefill
         <==> old(req.remotePrefill) && (!ok || !req.hasParams || (useHostBuffer && req.remoteDecode))
      ensures forall r | r in needRecv && r !in old(needRecv) :: needRecv[r].req.Readable()
      ensures !ok <==> req.hasParams && !(useHostBuffer && req.remoteDecode) && old(req.remotePrefill)
                       && (req.remoteBlocks.None? || req.remoteBlocks.value == []) && external > 0
    {
      ok := true;
      if !req.hasParams { return; }
      if req.remoteDecode {
        inBatch := inBatch + {req.id};
      }
      if useHostBuffer && req.remoteDecode {
        labels := labels.(needSave := labels.needSave + {req.id});
      } else if req.remotePrefill {
        if req.remoteBlocks.Some? && req.remoteBlocks.value != [] {
          if req.complete {
            var blocks := if external > 0 then local else [];
            needRecv := needRecv[req.id := ToRecv(req, blocks)];
            req.triggered := req.triggered + 1;
          }
        } else {
          if external != 0 { ok := false; return; }
        }
        req.remotePrefill := false;
      }
    }

    /** The loop over `_reqs_need_recv`: fails on the first request with a parameter missing. */
    method CollectReceives() returns (recv: map<ReqId, ToRecv>, ok: bool)
      ensures ok <==> forall r | r in needRecv :: needRecv[r].req.Readable()
      ensures ok ==> recv == needRecv
    {
      recv, ok := map[], true;
      var todo := needRecv.Keys;
      while todo != {}
        invariant todo <= needRecv.Keys
        invariant recv == map r | r in needRecv.Keys - todo :: needRecv[r]
        invariant forall r | r in needRecv.Keys - todo :: needRecv[r].req.Readable()
      {
        var r :| r in todo;
        if !needRecv[r].req.Readable() { ok := false; return; }
        recv := recv[r := needRecv[r]];
        todo := todo - {r};
      }
    }

    /** The loop over the scheduled requests that are still to be saved. */
    method LabelChunks(items: seq<Item>) returns (save: seq<ChunkState.Chunk>)
      modifies this`labels
      ensures labels == ChunkState.LabelAll(old(labels), items)
      ensures save == ChunkState.Issue(old(labels), items)
    {
      save := [];
      var i := 0;
      while i < |items|
        invariant 0 <= i <= |items|
        invariant labels == ChunkState.LabelAll(old(labels), items[..i])
        invariant save == ChunkState.Issue(old(labels), items[..i])
      {
        assert items[..i + 1][..i] == items[..i];
        var item := items[i];
        if item.req in labels.needSave && item.newBlocks.Some? {
          var idx := if item.req in labels.counter then labels.counter[item.req] else 0;
          var partial := item.computed + item.scheduled < item.prompt;
          save := save + [ChunkState.Chunk(item.req, idx, !partial, item.newBlocks.value)];
          labels := labels.(counter := labels.counter[item.req := idx + 1]);
          if !partial {
            labels := ChunkState.Labels(labels.needSave - {item.req}, labels.counter - {item.req});
          }
        }
        i := i + 1;
      }
      assert items[..|items|] == items;
    }

    /** Hands everything collected since the last call to the workers, each entry exactly once. */
    method BuildConnectorMeta(items: seq<Item>, ghost y: ProducerProtocol.System, ghost c: ProducerProtocol.Config)
      returns (meta: Metadata, ok: bool)
      requires Shows(y) && ProducerProtocol.ConfigOk(c)
      modifies this`needRecv, this`labels, this`needSend, this`inBatch, this`notProcessed, this`registrations
      ensures ok <==> forall r | r in old(needRecv) :: old(needRecv)[r].req.Readable()
      ensures ok ==> meta.recv == old(needRecv) && needRecv == map[]
      ensures ok ==> labels == ChunkState.LabelAll(old(labels), items)
      ensures ok ==> meta.save == ChunkState.Issue(old(labels), items)
      ensures ok ==> var y' := ProducerProtocol.Step(c, y, ProducerProtocol.Build);
                     Shows(y') && y'.queue == y.queue + [meta.send]
      ensures ok ==> meta.register == old(registrations) && registrations == []
      ensures !ok ==> unchanged(this)
    {
      var recv;
      recv, ok := CollectReceives();
      if !ok {
        meta := Metadata(map[], [], ProducerState.Meta([], {}, {}), []);
        return;
      }
      var save := LabelChunks(items);
      meta := Metadata(recv, save, ProducerState.Meta(needSend, inBatch, notProcessed), registrations);
      needRecv, inBatch, notProcessed, needSend, registrations := map[], {}, {}, [], [];
    }

    /** Whether freeing the blocks must wait, and the parameters handed to the consumer. */
    method RequestFinished(req: Request, lengthCapped: bool, blocks: seq<nat>, ghost y: ProducerProtocol.System,
                           now: real)
      returns (delayed: bool, handed: Option<seq<nat>>)
      requires req.OneTransfer() && Shows(y) && now == y.now
      modifies this`needRecv, this`labels, this`needSend, this`notProcessed, req
      ensures req.OneTransfer() && !(req.hasParams && req.remotePrefill)
      ensures var prefill := old(req.hasParams && req.remotePrefill);
              var decode := old(req.hasParams && !req.remotePrefill) && req.remoteDecode;
              && needRecv == (if prefill then old(needRecv)[req.id := ToRecv(req, [])] else old(needRecv))
              && (prefill ==> req.triggered == old(req.triggered) + 1)
              && Shows(if decode then ProducerProtocol.Fated(y, req.id, lengthCapped, |blocks|, timeout) else y)
              && labels == (if decode && !lengthCapped then old(labels).(needSave := old(labels.needSave) - {req.id})
                            else old(labels))
              && delayed == (decode && lengthCapped && blocks != [])
              && handed == (if decode && lengthCapped then Some(blocks) else None)
    {
      delayed, handed := false, None;
      if !req.hasParams { return; }
      if req.remotePrefill {
        needRecv := needRecv[req.id := ToRecv(req, [])];
        req.remotePrefill := false;
        req.triggered := req.triggered + 1;
        return;
      }
      if !req.remoteDecode { return; }
      if !lengthCapped {
        notProcessed := notProcessed + {req.id};
        labels := labels.(needSave := labels.needSave - {req.id});
        return;
      }
      delayed := |blocks| > 0;
      if delayed {
        SetTimer(req.id, now + timeout);
      }
      handed := Some(blocks);
    }

    method SetTimer(r: ReqId, expires: real)
      modifies this`needSend
      ensures needSend == ProducerState.Put(old(needSend), r, expires)
    {
      var i := 0;
      while i < |needSend| && needSend[i].req != r
        invariant i <= |needSend| && forall k | 0 <= k < i :: needSend[k].req != r
      {
        i := i + 1;
      }
      PutAt(needSend, r, expires, i);
      if i < |needSend| {
        needSend := needSend[i := ProducerState.Entry(r, expires)];
      } else {
        needSend := needSend + [ProducerState.Entry(r, expires)];
      }
    }
  }

  lemma {:induction false} PutAt(d: seq<ProducerState.Entry>, r: ReqId, expires: real, i: nat)
    requires i <= |d| && forall k | 0 <= k < i :: d[k].req != r
    requires i < |d| ==> d[i].req == r
    ensures ProducerState.Put(d, r, expires)
            == if i < |d| then d[i := ProducerState.Entry(r, expires)] else d + [ProducerState.Entry(r, expires)]
  {
    if i > 0 {
      var e := ProducerState.Entry(r, expires);
      PutAt(d[1..], r, expires, i - 1);
      if i < |d| {
        assert d[i := e] == [d[0]] + d[1..][i - 1 := e];
      } else {
        assert d + [e] == [d[0]] + (d[1..] + [e]);
      }
    } else if d != [] {
      assert d[0 := ProducerState.Entry(r, expires)] == [ProducerState.Entry(r, expires)] + d[1..];
    }
  }

  /** A request that is aborted before it was scheduled is queued for receiving with its parameters
      unchecked: building the next metadata fails exactly when one of them is missing. */
  method AbortedBeforeScheduling(id: ReqId, blocks: Option<seq<nat>>, complete: bool, ghost c: ProducerProtocol.Config)
    returns (ok: bool)
    requires ProducerProtocol.ConfigOk(c)
    ensures ok <==> blocks.Some? && complete
  {
    var scheduler := new Scheduler(false, 1.0);
    var req := new Request(id, true, false, blocks, complete, true);
    var delayed, handed := scheduler.RequestFinished(req, false, [], ProducerProtocol.Init(), 0.0);
    ghost var waiting := scheduler.needRecv;
    assert waiting == map[id := ToRecv(req, [])] && waiting[id].req.Readable() == (blocks.Some? && complete);
    var meta;
    meta, ok := scheduler.BuildConnectorMeta([], ProducerProtocol.Init(), c);
  }

  /** From allocation to the worker: a remote prefill allocated just before the metadata is built reaches the
      worker, which only notifies the producer exactly if no external tokens were promised or no local blocks
      are left to fill, and reads otherwise, whatever the block sizes. */
  method AllocateAndBuild(scheduler: Scheduler, req: Request, local: seq<nat>, external: nat, items: seq<Item>,
                          ratio: nat, ghost y: ProducerProtocol.System, ghost c: ProducerProtocol.Config)
    returns (meta: Metadata, ok: bool)
    requires req.OneTransfer() && scheduler.Shows(y) && ProducerProtocol.ConfigOk(c) && ratio > 0
    requires req.hasParams && !(scheduler.useHostBuffer && req.remoteDecode) && req.remotePrefill
    requires req.remoteBlocks.Some? && req.remoteBlocks.value != [] && req.complete
    requires forall r | r in scheduler.needRecv :: scheduler.needRecv[r].req.Readable()
    modifies scheduler, req
    ensures ok && req.id in meta.recv && meta.recv[req.id].req == req && scheduler.needRecv == map[]
    ensures meta.recv - {req.id} == old(scheduler.needRecv) - {req.id}
    ensures BlockPairing.SelectBlocks(meta.recv[req.id].blocks, req.remoteBlocks.value, ratio).Notify?
       <==> external == 0 || local == []
  {
    ok := scheduler.UpdateStateAfterAlloc(req, local, external, y, c);
    ghost var y' := if req.remoteDecode then ProducerProtocol.Step(c, y, ProducerProtocol.Schedule(req.id)) else y;
    assert forall r | r in scheduler.needRecv && r != req.id :: r in scheduler.needRecv - {req.id};
    BlockPairing.NotifiesIff(scheduler.needRecv[req.id].blocks, req.remoteBlocks.value, ratio);
    meta, ok := scheduler.BuildConnectorMeta(items, y', c);
  }
}
