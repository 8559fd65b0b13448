/**
 * The sender's registry of requested caps in static/bitrate-control.js.  Old
 * requests are forgotten lazily, when somebody looks; a ledger that never forgets
 * shows that this cannot be seen.
 */
module BitrateCaps {
  import opened Common
  import B = BitrateController

  const TTL := 35000

  datatype Entry = Entry(cap: int, at: int)
  type Requests = map<string, Entry>
  type Registry = map<string, Requests>

  predicate IsFresh(e: Entry, now: int) { now - e.at <= TTL }

  function Fresh(m: Requests, now: int): Requests {
    map f | f in m && IsFresh(m[f], now) :: m[f]
  }

  /** A stream without requests has no entry. */
  function Put(reg: Registry, stream: string, m: Requests): Registry {
    if m == map[] then reg - {stream} else reg[stream := m]
  }

  function Of(reg: Registry, stream: string): Requests {
    if stream in reg then reg[stream] else map[]
  }

  function AfterGet(reg: Registry, stream: string, now: int): Registry {
    if stream in reg then Put(reg, stream, Fresh(reg[stream], now)) else reg
  }

  function AfterSet(reg: Registry, stream: string, from: string, cap: Option<int>, now: int): Registry {
    var r := AfterGet(reg, stream, now);
    if cap.Some? then r[stream := Of(r, stream)[from := Entry(cap.value, now)]]
    else if stream in r then Put(r, stream, r[stream] - {from})
    else r
  }

  function AfterForget(reg: Registry, from: string): Registry {
    map s | s in reg && reg[s] - {from} != map[] :: reg[s] - {from}
  }

  /** The least of some requests. */
  ghost predicate IsLeast(m: Requests, r: Option<int>) {
    && (r.None? <==> m == map[])
    && (r.Some? ==> (exists f :: f in m && m[f].cap == r.value) && (forall f :: f in m ==> r.value <= m[f].cap))
  }

  class Caps {
    var streams: Registry

    constructor ()
      ensures streams == map[]
    {
      streams := map[];
    }

    method Get(stream: string, now: int) returns (least: Option<int>)
      modifies this
      ensures streams == AfterGet(old(streams), stream, now)
      ensures IsLeast(Fresh(Of(old(streams), stream), now), least)
    {
      if stream !in streams {
        return None;
      }
      var m;
      m, least := Sweep(streams[stream], now);
      streams := if |m| == 0 then streams - {stream} else streams[stream := m];
    }

    /** The loop of get over one stream's requests: it drops what is too old on its way. */
    static method Sweep(requests: Requests, now: int) returns (m: Requests, least: Option<int>)
      ensures m == Fresh(requests, now) && IsLeast(m, least)
    {
      m, least := requests, None;
      var todo := m.Keys;
      while todo != {}
        invariant todo <= m.Keys <= requests.Keys
        invariant forall f :: f in requests ==> (f in m <==> f in todo || IsFresh(requests[f], now))
        invariant forall f :: f in m ==> m[f] == requests[f]
        invariant least.None? <==> forall f :: f in m ==> f in todo
        invariant least.Some? ==> exists f :: f in m && f !in todo && m[f].cap == least.value
        invariant least.Some? ==> forall f :: f in m && f !in todo ==> least.value <= m[f].cap
        decreases |todo|
      {
        var from :| from in todo;
        todo := todo - {from};
        var e := m[from];
        if now - e.at > TTL {
          m := m - {from};
        } else if least.None? || e.cap < least.value {
          least := Some(e.cap);
        }
      }
      assert m == Fresh(requests, now);
    }

    method Set(stream: string, from: string, cap: Option<real>, now: int) returns (changed: bool)
      modifies this
      ensures streams == AfterSet(old(streams), stream, from, B.SanitizeCap(cap), now)
      ensures forall before, after ::
                IsLeast(Fresh(Of(old(streams), stream), now), before) && IsLeast(Fresh(Of(streams, stream), now), after) ==>
                  (changed <==> before != after)
    {
      hide B.SanitizeCap;
      var before := Get(stream, now);
      var valid := B.SanitizeCap(cap);
      if valid.None? {
        if stream in streams {
          var m := streams[stream] - {from};
          streams := if |m| == 0 then streams - {stream} else streams[stream := m];
        }
      } else {
        var m := if stream in streams then streams[stream] else map[];
        streams := streams[stream := m[from := Entry(valid.value, now)]];
      }
      AllFresh(old(streams), stream, from, valid, now);
      var after := Get(stream, now);
      LeastIsUnique();
      changed := after != before;
    }

    method Forget(from: string) returns (touched: set<string>)
      modifies this
      ensures streams == AfterForget(old(streams), from)
      ensures touched == set s | s in old(streams) && from in old(streams)[s]
    {
      hide Forgotten, AfterForget;
      touched := {};
      var todo := streams.Keys;
      ForgottenEnds(streams, from);
      while todo != {}
        invariant todo <= old(streams).Keys
        invariant streams == Forgotten(old(streams), from, todo)
        invariant touched == set s | s in old(streams) && s !in todo && from in old(streams)[s]
        decreases |todo|
      {
        var stream :| stream in todo;
        ForgottenStep(old(streams), from, todo, stream);
        todo := todo - {stream};
        var m := streams[stream];
        if from in m {
          touched := touched + {stream};
        }
        m := m - {from};
        streams := if |m| == 0 then streams - {stream} else streams[stream := m];
      }
    }
  }

  /** Half-way through forget: the streams in todo are still as they were. */
  function Forgotten(reg: Registry, from: string, todo: set<string>): Registry {
    map s | s in reg && (s in todo || reg[s] - {from} != map[]) :: if s in todo then reg[s] else reg[s] - {from}
  }

  lemma ForgottenStep(reg: Registry, from: string, todo: set<string>, stream: string)
    requires stream in todo && todo <= reg.Keys
    ensures var f := Forgotten(reg, from, todo);
            && stream in f && f[stream] == reg[stream]
            && Forgotten(reg, from, todo - {stream}) == Put(f, stream, reg[stream] - {from})
  {
  }

  lemma ForgottenEnds(reg: Registry, from: string)
    ensures Forgotten(reg, from, reg.Keys) == reg && Forgotten(reg, from, {}) == AfterForget(reg, from)
  {
  }

  lemma LeastIsUnique()
    ensures forall m, r, r' :: IsLeast(m, r) && IsLeast(m, r') ==> r == r'
  {
  }

  /** After set, the stream has nothing stale left, so that looking again changes nothing. */
  lemma AllFresh(reg: Registry, stream: string, from: string, cap: Option<int>, now: int)
    ensures var r := AfterSet(reg, stream, from, cap, now);
            AfterGet(r, stream, now) == r && Fresh(Of(r, stream), now) == Of(r, stream)
  {
    var r := AfterSet(reg, stream, from, cap, now);
    assert cap.Some? ==> from in Of(r, stream);
    assert stream in r ==> r[stream] != map[];
    assert forall f :: f in Of(r, stream) ==> IsFresh(Of(r, stream)[f], now);
    assert Fresh(Of(r, stream), now) == Of(r, stream);
  }
}
