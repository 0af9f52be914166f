/** Request accounting of a benchmark client with one connection (memtier_benchmark/client.cpp and
    shard_connection.cpp): the pipeline of requests waiting for replies, the set-up commands sent after
    each connect, and the reconnect after every `interval` replies.

    The clock enters as the parameter `timeUp`; what the server answers is a sequence of booleans, false
    for a refused set-up command. */
module ClientPipeline {
  import Division

  datatype Request = Auth | SelectDb | Data

  datatype Setup = NotSent | Sent | Done

  datatype Connection = Disconnected | InProgress | Connected

  /** Zero stands for "no limit" in `requests` and for "never" in `interval`. */
  datatype Config = Config(requests: nat, interval: nat, pipeline: nat, authenticate: bool, selectDb: bool,
                           arbitrary: bool, setRatio: nat, getRatio: nat, multiKeyGet: nat, waitA: nat, waitB: nat)

  // ---------------------------------------------------------------- the pipeline

  function CountData(ps: seq<Request>): nat {
    if ps == [] then 0 else (if ps[0] == Data then 1 else 0) + CountData(ps[1..])
  }

  lemma {:induction false} CountDataSnoc(ps: seq<Request>, r: Request)
    ensures CountData(ps + [r]) == CountData(ps) + if r == Data then 1 else 0
  {
    if ps == [] {
      assert ps + [r] == [r] && [r][1..] == [];
    } else {
      assert (ps + [r])[1..] == ps[1..] + [r];
      CountDataSnoc(ps[1..], r);
    }
  }

  lemma {:induction false} NoData(ps: seq<Request>)
    requires Data !in ps
    ensures CountData(ps) == 0
  {
    if ps != [] { NoData(ps[1..]); }
  }

  lemma {:induction false} OnlyData(ps: seq<Request>)
    requires forall i | 0 <= i < |ps| :: ps[i] == Data
    ensures CountData(ps) == |ps|
  {
    if ps != [] { OnlyData(ps[1..]); }
  }

  class Client {
    const config: Config
    var processed: nat
    var generated: nat
    var setCount: nat
    var getCount: nat
    var sets: nat
    var waits: nat
    var state: Connection
    var auth: Setup
    var select: Setup
    var pipeline: seq<Request>
    var pending: int

    /** `is_conn_setup_done`, for a connection that needs no cluster slots. */
    predicate SetupDone()
      reads this
    {
      auth == Done && select == Done
    }

    /** Until set-up is done the pipeline holds unanswered set-up commands only, afterwards data requests
        only.  A refused command is popped and its state stays `Sent`. */
    ghost predicate SetupOk()
      reads this
    {
      && (auth == NotSent || select == NotSent ==> pipeline == [])
      && if SetupDone() then forall i | 0 <= i < |pipeline| :: pipeline[i] == Data
         else
           && (pipeline == [] || pipeline == [Auth] || pipeline == [SelectDb] || pipeline == [Auth, SelectDb])
           && (Auth in pipeline ==> auth == Sent) && (SelectDb in pipeline ==> select == Sent)
    }

    ghost predicate CountersOk()
      reads this
    {
      && pending == |pipeline| && generated == processed + CountData(pipeline)
      && (config.requests > 0 ==> generated <= config.requests)
      && (config.interval > 0 ==> processed % config.interval + (generated - processed) <= config.interval)
    }

    ghost predicate Valid()
      reads this
    {
      SetupOk() && CountersOk() && (config.arbitrary || config.setRatio + config.getRatio > 0)
          && (state != Connected ==> pipeline == [])
    }

    constructor (config: Config)
      requires config.arbitrary || config.setRatio + config.getRatio > 0
      ensures Valid() && this.config == config && processed == 0 && generated == 0 && pipeline == []
              && state == Disconnected
    {
      this.config := config;
      processed, generated, setCount, getCount, sets, waits := 0, 0, 0, 0, 0, 0;
      state, auth, select, pipeline, pending := Disconnected, Done, Done, [], 0;
      new;
      if config.interval > 0 { Division.Unique(0, 0, 0, config.interval); }
    }

    predicate Finished(timeUp: bool)
      reads this
    {
      (config.requests > 0 && processed >= config.requests) || timeUp
    }

    /** `hold_pipeline` */
    predicate Hold()
      requires generated >= processed
      reads this
    {
      || (config.requests > 0 && generated >= config.requests)
      || (config.interval > 0 && processed % config.interval + (generated - processed) >= config.interval)
    }

    /** Why no more requests are created: the time is up, all configured requests were answered or at least created, the
        pipeline is full, or the replies to what was created complete an interval. */
    predicate Stopped(timeUp: bool)
      reads this
    {
      || timeUp || |pipeline| >= config.pipeline
      || (config.requests > 0 && (processed >= config.requests || generated == config.requests))
      || (config.interval > 0 && processed % config.interval + (generated - processed) == config.interval)
    }

    method PushReq(r: Request)
      modifies this`pipeline, this`pending
      ensures pipeline == old(pipeline) + [r] && pending == old(pending) + 1
    {
      pipeline := pipeline + [r];
      pending := pending + 1;
    }

    /** `connect` after the set-up state was reset: new set-up commands are due. */
    method Connect()
      requires Valid() && pipeline == []
      modifies this`auth, this`select, this`state
      ensures Valid() && state == InProgress
      ensures auth == (if config.authenticate then NotSent else Done)
              && select == (if config.selectDb then NotSent else Done)
    {
      auth := if config.authenticate then NotSent else Done;
      select := if config.selectDb then NotSent else Done;
      state := InProgress;
    }

    /** `send_conn_setup_commands` */
    method SendSetup()
      requires Valid() && !SetupDone() && state == Connected
      modifies this`auth, this`select, this`pipeline, this`pending
      ensures Valid() && !SetupDone() && auth != NotSent && select != NotSent
      ensures pipeline == old(pipeline) + (if old(auth) == NotSent then [Auth]
              else []) + (if old(select) == NotSent then [SelectDb] else [])
    {
      hide CountData;
      NoData(pipeline);
      if auth == NotSent {
        PushReq(Auth);
        auth := Sent;
      }
      if select == NotSent {
        PushReq(SelectDb);
        select := Sent;
      }
      NoData(pipeline);
    }

    /** WAITs come first and whenever sets have outrun them. */
    predicate WaitDue()
      reads this
    {
      !config.arbitrary && config.waitB != 0 && (waits == 0 || sets / waits > config.waitA / config.waitB)
    }

    /** Otherwise sets, up to their share of a round, and then gets. */
    predicate SetDue()
      reads this
    {
      !config.arbitrary && !WaitDue() && setCount < config.setRatio
    }

    predicate GetDue()
      reads this
    {
      !config.arbitrary && !WaitDue() && !SetDue() && getCount < config.getRatio
    }

    /** `create_request`: one more request, or the turn on which the set and get counters start over. */
    method CreateRequest() returns (created: bool)
      requires Valid() && SetupDone() && !Hold() && state == Connected
      modifies this`generated, this`setCount, this`getCount, this`sets, this`waits, this`pipeline, this`pending
      ensures Valid() && SetupDone()
      ensures created ==> generated == old(generated) + 1 && pipeline == old(pipeline) + [Data]
      ensures !created ==> generated == old(generated) && pipeline == old(pipeline) && setCount == getCount == 0
      ensures !created ==> old(setCount) >= config.setRatio && old(getCount) >= config.getRatio && !config.arbitrary
      ensures waits == old(waits) + (if old(WaitDue()) then 1 else 0)
      ensures sets == old(sets) + (if old(SetDue()) then 1 else 0)
      ensures created ==> setCount == old(setCount) + (if old(SetDue()) then 1 else 0)
      ensures created ==> getCount == old(getCount) + (if old(GetDue()) then Keys(config, old(getCount)) else 0)
      ensures created <==> config.arbitrary || old(WaitDue()) || old(SetDue()) || old(GetDue())
    {
      hide CountData;
      CountDataSnoc(pipeline, Data);
      if config.arbitrary {
        PushReq(Data);
        generated := generated + 1;
        return true;
      }
      if config.waitB != 0 && (waits == 0 || sets / waits > config.waitA / config.waitB) {
        waits := waits + 1;
        PushReq(Data);
        generated := generated + 1;
        return true;
      } else if setCount < config.setRatio {
        PushReq(Data);
        generated := generated + 1;
        setCount := setCount + 1;
        sets := sets + 1;
        return true;
      } else if getCount < config.getRatio {
        PushReq(Data);
        generated := generated + 1;
        if config.multiKeyGet > 0 {
          var keys := config.getRatio - getCount;
          if keys > config.multiKeyGet { keys := config.multiKeyGet; }
          getCount := getCount + keys;
        } else {
          getCount := getCount + 1;
        }
        return true;
      }
      setCount, getCount := 0, 0;
      return false;
    }

    /** `fill_pipeline` */
    method FillPipeline(timeUp: bool)
      requires Valid() && state == Connected
      modifies this`generated, this`setCount, this`getCount, this`sets, this`waits, this`pipeline, this`pending,
               this`auth, this`select
      ensures Valid() && old(pipeline) <= pipeline
      ensures old(SetupDone()) ==> SetupDone() && Stopped(timeUp)
      ensures timeUp || (config.requests > 0 && processed >= config.requests) || |old(pipeline)| >= config.pipeline
              ==> pipeline == old(pipeline) && generated == old(generated) && auth == old(auth) && select == old(select)
      ensures !old(SetupDone()) && !Finished(timeUp) && |old(pipeline)| < config.pipeline
              ==> auth != NotSent && select != NotSent
    {
      hide CountData;
      while !Finished(timeUp) && |pipeline| < config.pipeline
        invariant Valid() && old(pipeline) <= pipeline && (old(SetupDone()) <==> SetupDone())
        invariant !old(SetupDone()) ==> pipeline == old(pipeline)
        invariant Finished(timeUp) || |old(pipeline)| >= config.pipeline ==>
                    pipeline == old(pipeline) && generated == old(generated) && auth == old(auth)
                    && select == old(select)
        decreases config.pipeline - |pipeline|, if setCount < config.setRatio || getCount < config.getRatio
                  || config.arbitrary then 0 else 1
      {
        if !SetupDone() {
          SendSetup();
          return;
        }
        if Hold() { break; }
        var created := CreateRequest();
      }
    }

    /** The event that ends `connect`, in `handle_event`: the connection is up and the pipeline is filled, or the
        attempt has failed. */
    method ConnectEvent(failed: bool, timeUp: bool)
      requires Valid() && state == InProgress
      modifies this`generated, this`setCount, this`getCount, this`sets, this`waits, this`pipeline, this`pending,
               this`auth, this`select, this`state
      ensures Valid() && state == if failed then Disconnected else Connected
      ensures failed ==> pipeline == [] && SetupDone() && generated == old(generated)
      ensures !failed && old(SetupDone()) ==> SetupDone() && Stopped(timeUp)
      ensures !failed && !old(SetupDone()) && !Finished(timeUp) && config.pipeline > 0
              ==> auth != NotSent && select != NotSent
    {
      if failed {
        Disconnect();
        return;
      }
      state := Connected;
      FillPipeline(timeUp);
    }

    /** Any sequence of events of a connection: replies that nobody waits for, and events out of place, do not
        occur and are skipped.  `reconnects` counts how often the client came back by itself. */
    method Run(events: seq<Event>) returns (reconnects: nat)
      requires Valid() && state == Disconnected && processed == 0 && generated == 0
      modifies this
      ensures Valid() && reconnects == if config.interval == 0 then 0 else processed / config.interval
      ensures config.requests > 0 ==> processed <= generated <= config.requests
    {
      hide CountData, SetupOk;
      if config.interval > 0 { Division.Unique(0, 0, 0, config.interval); }
      Connect();
      reconnects := 0;
      var i := 0;
      while i < |events|
        invariant i <= |events| && Valid() && reconnects == if config.interval == 0 then 0
                  else processed / config.interval
      {
        match events[i] {
          case Up(failed, timeUp) =>
            if state == InProgress {
              ConnectEvent(failed, timeUp);
            }
          case Replies(oks, timeUp) =>
            if state == Connected && |oks| <= |pipeline| {
              ghost var before, sent := processed, generated;
              var again := ProcessResponse(oks, timeUp);
              if config.interval > 0 { NextMultiple(before, processed, sent, config.interval); }
              if again { reconnects := reconnects + 1; }
            }
        }
        i := i + 1;
      }
    }

    /** What `process_response` does with one reply; false when it gives up on a refused set-up command. */
    method HandleReply(ok: bool) returns (more: bool, data: bool)
      requires Valid() && pipeline != [] && state == Connected
      modifies this`pipeline, this`pending, this`auth, this`select, this`processed
      ensures Valid() && pipeline == old(pipeline)[1..] && pending == old(pending) - 1 >= 0
      ensures data == (old(pipeline)[0] == Data) && (more <==> ok || data)
      ensures processed == old(processed) + (if data then 1 else 0) && generated == old(generated)
      ensures data && config.interval > 0 && processed % config.interval == 0 ==> pipeline == []
      ensures old(SetupDone()) ==> SetupDone()
      ensures auth == (if old(pipeline)[0] == Auth && ok then Done else old(auth))
              && select == (if old(pipeline)[0] == SelectDb && ok then Done else old(select))
    {
      var r := pipeline[0];
      if SetupDone() { OnlyData(pipeline); }
      if config.interval > 0 { Division.Step(processed, config.interval); }
      hide CountData;
      CountTail(pipeline);
      pipeline := pipeline[1..];
      pending := pending - 1;
      data := false;
      if r == Auth {
        if !ok { return false, false; }
        auth := Done;
      } else if r == SelectDb {
        if !ok { return false, false; }
        select := Done;
      } else {
        processed := processed + 1;
        data := true;
      }
      more := true;
    }

    /** `process_response` for the replies that have arrived, never more than there are requests waiting. */
    method ProcessResponse(replies: seq<bool>, timeUp: bool) returns (reconnected: bool)
      requires Valid() && state == Connected && |replies| <= |pipeline|
      modifies this
      ensures Valid() && processed >= old(processed)
      ensures reconnected <==> config.interval > 0 && processed > old(processed) && processed % config.interval == 0
      ensures reconnected ==> state == InProgress && pipeline == [] && generated == processed == old(generated)
      ensures processed <= old(generated)
      ensures processed == old(processed) + CountData(old(pipeline)[..Consumed(old(pipeline), replies)])
      ensures !reconnected && old(SetupDone()) ==> Stopped(timeUp)
      ensures !reconnected ==> old(pipeline)[Consumed(old(pipeline), replies)..] <= pipeline && state == Connected
    {
      hide CountData, SetupOk, CountersOk;
      var i, handled := 0, false;
      ghost var before, all := pipeline, Consumed(pipeline, replies);
      NoData([]);
      while i < |replies|
        invariant Valid() && i <= |replies| && pipeline == before[i..] && state == Connected
        invariant all == i + Consumed(before[i..], replies[i..])
        invariant processed == old(processed) + CountData(before[..i])
        invariant processed >= old(processed) && (handled <==> processed > old(processed))
        invariant generated == old(generated) && (!SetupDone() ==> !handled) && (old(SetupDone()) ==> SetupDone())
        invariant handled && config.interval > 0 && processed % config.interval == 0 ==> pipeline == []
      {
        assert before[i..][1..] == before[i + 1..] && replies[i..][1..] == replies[i + 1..];
        assert before[..i + 1] == before[..i] + [before[i]];
        CountDataSnoc(before[..i], before[i]);
        if SetupDone() { OnlyRequests(); } else { OnlySetup(); }
        var more, data := HandleReply(replies[i]);
        i := i + 1;
        if data { handled := true; }
        Behind();
        if !more { return false; }
      }
      Behind();
      if config.interval > 0 && handled {
        if processed % config.interval == 0 {
          assert |pipeline| == 0;
          EmptyPipeline();
          Disconnect();
          Connect();
          return true;
        }
      }
      FillPipeline(timeUp);
      return false;
    }

    /** `disconnect`: by default no set-up command is due. */
    method Disconnect()
      requires Valid() && pipeline == []
      modifies this`auth, this`select, this`state
      ensures Valid() && state == Disconnected && SetupDone()
    {
      auth, select, state := Done, Done, Disconnected;
    }

    lemma Behind()
      requires Valid()
      ensures processed <= generated
    {
    }

    lemma OnlySetup()
      requires Valid() && !SetupDone() && pipeline != []
      ensures pipeline[0] != Data
    {
    }

    lemma OnlyRequests()
      requires Valid() && SetupDone() && pipeline != []
      ensures pipeline[0] == Data
    {
    }

    lemma EmptyPipeline()
      requires Valid() && pipeline == []
      ensures generated == processed
    {
    }
  }

  datatype Event = Up(failed: bool, timeUp: bool) | Replies(oks: seq<bool>, timeUp: bool)

  /** Replies to requests that stay within one interval bring the count to the next multiple or leave it in the
      same interval. */
  lemma NextMultiple(before: nat, after: nat, sent: nat, k: nat)
    requires k > 0 && before <= after <= sent && before % k + (sent - before) <= k
    ensures after / k == before / k + if after > before && after % k == 0 then 1 else 0
  {
    Division.Advance(before, after - before, k);
    assert before % k < k;
  }

  /** How many keys the next get asks for: what is left of the round, up to the limit of a multi-key get. */
  function Keys(config: Config, getCount: nat): nat
    requires getCount < config.getRatio
  {
    if config.multiKeyGet == 0 then 1
    else if config.getRatio - getCount > config.multiKeyGet then config.multiKeyGet
    else config.getRatio - getCount
  }

  /** How many of the replies are taken: all of them, or up to the first refused set-up command. */
  function Consumed(ps: seq<Request>, replies: seq<bool>): (k: nat)
    requires |replies| <= |ps|
    ensures k <= |replies|
  {
    if replies == [] then 0
    else if ps[0] != Data && !replies[0] then 1
    else 1 + Consumed(ps[1..], replies[1..])
  }

  lemma CountTail(ps: seq<Request>)
    requires ps != []
    ensures CountData(ps) == CountData(ps[1..]) + if ps[0] == Data then 1 else 0
  {
  }
}
