/**
  The idempotency layer: the middleware that answers a repeated call from a store instead of
  running it again (internal/kernel/httpx/idempotency.go), and the store's two statements
  (internal/kernel/postgres/calls.go).  The handler behind it is arbitrary.
 */
module Replay {
  import opened Common

  /** What the middleware reads of a JSON-RPC body; an absent id has no raw text. */
  datatype Envelope = Envelope(rpc: string, id: Option<string>)

  /** A request: its body, unless it could not be read, and the stand it is for, if any. */
  datatype Request = Request(body: Option<string>, sandbox: Option<int>)

  datatype Reply = Reply(status: int, body: string)

  datatype Key = Key(sandbox: int, rpc: string, requestID: string)

  datatype Row = Row(bodyHash: string, response: string, at: int)

  /**
    The window is in nanoseconds and the clock in microseconds.  Decoding JSON, hashing, and
    what a jsonb column keeps of a text are functions the layer is given.
   */
  datatype Config = Config(
    methods: set<string>, window: int,
    decode: string -> Option<Envelope>, hash: string -> string, hasResult: string -> bool, column: string -> string)
  {
    /** The window as the statement receives it: whole milliseconds, the rest cut off. */
    function Micros(): int { window / 1_000_000 * 1000 }
  }

  const OK: int := 200
  const MAX_RECORDED_BODY: nat := 65536

  // ---------- the capture buffer ----------

  function Capped(body: string): string { if |body| <= MAX_RECORDED_BODY then body else body[..MAX_RECORDED_BODY] }

  /** Passes a response through and keeps the start of it. */
  class CaptureWriter {
    var status: int
    var kept: string
    var wroteHeader: bool
    ghost var sent: string

    ghost predicate Valid() reads this { kept == Capped(sent) }

    constructor ()
      ensures Valid() && status == OK && sent == "" && !wroteHeader
    {
      status, kept, wroteHeader, sent := OK, "", false, "";
    }

    /** The first status written is the one that counts. */
    method WriteHeader(code: int)
      modifies this`status, this`wroteHeader
      ensures wroteHeader && status == if old(wroteHeader) then old(status) else code
    {
      if wroteHeader {
        return;
      }
      wroteHeader := true;
      status := code;
    }

    method Write(chunk: string)
      requires Valid()
      modifies this`kept, this`wroteHeader, this`sent
      ensures Valid() && wroteHeader && sent == old(sent) + chunk
    {
      if !wroteHeader {
        wroteHeader := true;
      }
      if |kept| < MAX_RECORDED_BODY {
        var room := MAX_RECORDED_BODY - |kept|;
        kept := kept + chunk[..if |chunk| < room then |chunk| else room];
      }
      sent := sent + chunk;
    }
  }

  // ---------- the store ----------

  /** The stored answer to this very call, while it is young enough. */
  function Recalled(rows: map<Key, Row>, key: Key, bodyHash: string, now: int, micros: int): Option<string> {
    if key in rows && rows[key].bodyHash == bodyHash && now - micros < rows[key].at then Some(rows[key].response) else None
  }

  /** A key on file under another body is left as it is. */
  function Remembered(rows: map<Key, Row>, key: Key, row: Row): map<Key, Row> {
    if key in rows && rows[key].bodyHash != row.bodyHash then rows else rows[key := row]
  }

  class CallStore {
    var rows: map<Key, Row>

    method Recall(key: Key, bodyHash: string, now: int, micros: int) returns (found: Option<string>)
      ensures found == Recalled(rows, key, bodyHash, now, micros)
    {
      if key !in rows {
        return None;
      }
      var row := rows[key];
      if row.bodyHash != bodyHash || row.at <= now - micros {
        return None;
      }
      return Some(row.response);
    }

    method Remember(key: Key, row: Row)
      modifies this
      ensures rows == Remembered(old(rows), key, row)
    {
      if key !in rows {
        rows := rows[key := row];
      } else if rows[key].bodyHash == row.bodyHash {
        rows := rows[key := rows[key].(response := row.response, at := row.at)];
      }
    }
  }

  // ---------- the middleware ----------

  /** The call's identity, and nothing for a call this layer leaves alone. */
  function KeyOf(c: Config, r: Request): Option<Key> {
    if c.window <= 0 || c.methods == {} || r.body.None? || r.body.value == "" then None
    else
      match c.decode(r.body.value)
      case None => None
      case Some(envelope) =>
        if envelope.rpc !in c.methods || envelope.id.None? || envelope.id.value == "" || r.sandbox.None? then None
        else Some(Key(r.sandbox.value, envelope.rpc, envelope.id.value))
  }

  /** An answer worth replaying: what was captured of it carries a result. */
  predicate Worth(c: Config, reply: Reply) { reply.status == OK && c.hasResult(Capped(reply.body)) }

  /** What serving one request does to the handler's state and the store, and what it answers. */
  function Served<S>(c: Config, next: (S, Request) -> (S, Reply), s: S, rows: map<Key, Row>, r: Request,
                     begun: int, answered: int): (S, map<Key, Row>, Reply)
  {
    match KeyOf(c, r)
    case None =>
      var (s', reply) := next(s, r);
      (s', rows, reply)
    case Some(key) =>
      var bodyHash := c.hash(r.body.value);
      match Recalled(rows, key, bodyHash, begun, c.Micros())
      case Some(stored) => (s, rows, Reply(OK, stored))
      case None =>
        var (s', reply) := next(s, r);
        (s',
         if Worth(c, reply) then Remembered(rows, key, Row(bodyHash, c.column(Capped(reply.body)), answered)) else rows,
         reply)
  }

  class Middleware {
    const store: CallStore
    const config: Config

    constructor (store: CallStore, config: Config)
      ensures this.store == store && this.config == config
    {
      this.store, this.config := store, config;
    }

    /** Replays a repeat, and records a first attempt that got somewhere. */
    method Serve<S>(next: (S, Request) -> (S, Reply), s: S, r: Request, begun: int, answered: int)
      returns (s': S, reply: Reply)
      modifies store
      ensures (s', store.rows, reply) == Served(config, next, s, old(store.rows), r, begun, answered)
    {
      var key := Identity(r);
      if key.None? {
        var outcome := next(s, r);
        return outcome.0, outcome.1;
      }
      var bodyHash := config.hash(r.body.value);
      var stored := store.Recall(key.value, bodyHash, begun, config.Micros());
      if stored.Some? {
        return s, Reply(OK, stored.value);
      }
      var capture := new CaptureWriter();
      var outcome := next(s, r);
      s', reply := outcome.0, outcome.1;
      capture.WriteHeader(reply.status);
      capture.Write(reply.body);
      assert capture.kept == Capped(reply.body);
      if capture.status == OK && config.hasResult(capture.kept) {
        store.Remember(key.value, Row(bodyHash, config.column(capture.kept), answered));
      }
    }

    method Identity(r: Request) returns (key: Option<Key>)
      ensures key == KeyOf(config, r)
    {
      if config.window <= 0 || config.methods == {} {
        return None;
      }
      if r.body.None? || r.body.value == "" {
        return None;
      }
      var envelope := config.decode(r.body.value);
      if envelope.None? {
        return None;
      }
      if envelope.value.rpc !in config.methods || envelope.value.id.None? || envelope.value.id.value == "" {
        return None;
      }
      if r.sandbox.None? {
        return None;
      }
      return Some(Key(r.sandbox.value, envelope.value.rpc, envelope.value.id.value));
    }
  }

  // ---------- runs ----------

  /** One request, when it arrived and when its handler, had it run, would have been done. */
  datatype Delivery = Delivery(request: Request, begun: int, answered: int)

  /** What became of one keyed call; ran says whether the handler did the work. */
  datatype Entry = Entry(key: Key, body: string, ran: bool, reply: Reply, begun: int, answered: int)

  /** The handler's state and the store, beside an auxiliary log nothing reads. */
  datatype World<S> = World(state: S, rows: map<Key, Row>, log: seq<Entry>)

  function Logged(c: Config, rows: map<Key, Row>, d: Delivery, reply: Reply): seq<Entry> {
    match KeyOf(c, d.request)
    case None => []
    case Some(key) =>
      var body := d.request.body.value;
      [Entry(key, body, Recalled(rows, key, c.hash(body), d.begun, c.Micros()).None?, reply, d.begun, d.answered)]
  }

  function Step<S>(c: Config, next: (S, Request) -> (S, Reply), w: World<S>, d: Delivery): World<S> {
    var (s, rows, reply) := Served(c, next, w.state, w.rows, d.request, d.begun, d.answered);
    World(s, rows, w.log + Logged(c, w.rows, d, reply))
  }

  function Run<S>(c: Config, next: (S, Request) -> (S, Reply), w: World<S>, ds: seq<Delivery>): World<S> {
    if ds == [] then w else Step(c, next, Run(c, next, w, ds[..|ds| - 1]), ds[|ds| - 1])
  }

  ghost predicate Injective(c: Config) { forall a, b :: c.hash(a) == c.hash(b) ==> a == b }

  // ---------- the store is a summary of the history ----------

  /** The call ran under this key and its answer was worth replaying. */
  predicate Answers(c: Config, e: Entry, key: Key) { e.key == key && e.ran && Worth(c, e.reply) }

  /**
    The row of a key, told from the history alone: its body is that of the first answer given
    under the key, and its response and time those of the last answer given to that body.
   */
  predicate Summary(c: Config, log: seq<Entry>, key: Key, row: Row, first: nat, last: nat) {
    && first <= last < |log|
    && Answers(c, log[first], key) && (forall k :: 0 <= k < first ==> !Answers(c, log[k], key))
    && Answers(c, log[last], key) && log[last].body == log[first].body
    && (forall k :: last < k < |log| ==> !(Answers(c, log[k], key) && log[k].body == log[first].body))
    && row == Row(c.hash(log[first].body), c.column(Capped(log[last].reply.body)), log[last].answered)
  }

  ghost predicate Summarized(c: Config, log: seq<Entry>, rows: map<Key, Row>, key: Key) {
    if key in rows then exists first: nat, last: nat :: Summary(c, log, key, rows[key], first, last)
    else forall k :: 0 <= k < |log| ==> !Answers(c, log[k], key)
  }

  /** An entry that gives no answer under the key changes nothing about its summary. */
  lemma SummaryStays(c: Config, log: seq<Entry>, e: Entry, rows: map<Key, Row>, key: Key)
    requires Summarized(c, log, rows, key)
    requires key in rows ==> !(Answers(c, e, key) && c.hash(e.body) == rows[key].bodyHash)
    requires key !in rows ==> !Answers(c, e, key)
    ensures Summarized(c, log + [e], rows, key)
  {
    var log' := log + [e];
    if key in rows {
      var first: nat, last: nat :| Summary(c, log, key, rows[key], first, last);
      assert forall k :: 0 <= k < |log| ==> log'[k] == log[k];
      assert Summary(c, log', key, rows[key], first, last);
    }
  }

  /** An answer under a new key, or to the body the key is pinned to, becomes its row. */
  lemma SummaryMoves(c: Config, log: seq<Entry>, e: Entry, rows: map<Key, Row>, key: Key)
    requires Summarized(c, log, rows, key) && Injective(c)
    requires Answers(c, e, key) && (key in rows ==> c.hash(e.body) == rows[key].bodyHash)
    ensures Summarized(c, log + [e], rows[key := Row(c.hash(e.body), c.column(Capped(e.reply.body)), e.answered)], key)
  {
    var log' := log + [e];
    var row := Row(c.hash(e.body), c.column(Capped(e.reply.body)), e.answered);
    assert forall k :: 0 <= k < |log| ==> log'[k] == log[k];
    if key in rows {
      var first: nat, last: nat :| Summary(c, log, key, rows[key], first, last);
      assert Summary(c, log', key, row, first, |log|);
    } else {
      assert Summary(c, log', key, row, |log|, |log|);
    }
  }

  lemma SameRow(c: Config, log: seq<Entry>, rows: map<Key, Row>, rows': map<Key, Row>, key: Key)
    requires Summarized(c, log, rows, key)
    requires key in rows' <==> key in rows
    requires key in rows ==> rows'[key] == rows[key]
    ensures Summarized(c, log, rows', key)
  {
  }

  lemma StepSummarized<S>(c: Config, next: (S, Request) -> (S, Reply), w: World<S>, d: Delivery, key: Key)
    requires Summarized(c, w.log, w.rows, key) && Injective(c)
    ensures Summarized(c, Step(c, next, w, d).log, Step(c, next, w, d).rows, key)
  {
    var w' := Step(c, next, w, d);
    if KeyOf(c, d.request).Some? {
      var e := w'.log[|w.log|];
      assert w'.log == w.log + [e];
      if Answers(c, e, key) && (key in w.rows ==> w.rows[key].bodyHash == c.hash(e.body)) {
        SummaryMoves(c, w.log, e, w.rows, key);
        SameRow(c, w'.log, w.rows[key := w'.rows[key]], w'.rows, key);
      } else {
        SummaryStays(c, w.log, e, w.rows, key);
        SameRow(c, w'.log, w.rows, w'.rows, key);
      }
    } else {
      assert w'.log == w.log;
    }
  }

  /** Over every run from an empty store, the store holds for each key exactly what the history says. */
  lemma {:induction false} StoreSummarizes<S>(c: Config, next: (S, Request) -> (S, Reply), s: S, ds: seq<Delivery>, key: Key)
    requires Injective(c)
    ensures var w := Run(c, next, World(s, map[], []), ds); Summarized(c, w.log, w.rows, key)
  {
    if ds != [] {
      StoreSummarizes(c, next, s, ds[..|ds| - 1], key);
      StepSummarized(c, next, Run(c, next, World(s, map[], []), ds[..|ds| - 1]), ds[|ds| - 1], key);
    }
  }

  /** The history answers this call: its body is the one the key was first answered for, and the last answer is young. */
  ghost predicate AnsweredBefore(c: Config, log: seq<Entry>, rows: map<Key, Row>, key: Key, body: string, begun: int) {
    key in rows &&
    exists first: nat, last: nat :: Summary(c, log, key, rows[key], first, last) &&
      log[first].body == body && begun - c.Micros() < log[last].answered
  }

  lemma RecalledExactlyWhen(c: Config, log: seq<Entry>, rows: map<Key, Row>, key: Key, body: string, begun: int)
    requires Injective(c) && Summarized(c, log, rows, key)
    ensures Recalled(rows, key, c.hash(body), begun, c.Micros()).Some? <==> AnsweredBefore(c, log, rows, key, body, begun)
  {
    if key in rows {
      var first: nat, last: nat :| Summary(c, log, key, rows[key], first, last);
      assert rows[key].bodyHash == c.hash(log[first].body) && rows[key].at == log[last].answered;
    }
  }

  lemma StepLogs<S>(c: Config, next: (S, Request) -> (S, Reply), w: World<S>, d: Delivery, key: Key)
    requires KeyOf(c, d.request) == Some(key)
    ensures var w' := Step(c, next, w, d); var body := d.request.body.value;
      var recalled := Recalled(w.rows, key, c.hash(body), d.begun, c.Micros());
      && |w'.log| == |w.log| + 1 && w.log == w'.log[..|w.log|]
      && (var e := w'.log[|w.log|]; e.key == key && e.body == body && e.begun == d.begun && e.ran == recalled.None?)
      && (recalled.Some? ==>
           w'.state == w.state && w'.rows == w.rows && w'.log[|w.log|].reply == Reply(OK, recalled.value))
  {
  }

  /**
    When a keyed call is answered from the store, in terms of the history: exactly when its
    body is the one the key was first answered for and its latest answer is young enough; and
    then with that answer, with no work done and nothing stored.
   */
  lemma ReplayedExactlyWhen<S>(c: Config, next: (S, Request) -> (S, Reply), s: S, ds: seq<Delivery>, d: Delivery, key: Key)
    requires Injective(c) && KeyOf(c, d.request) == Some(key)
    ensures var w := Run(c, next, World(s, map[], []), ds);
      var w' := Step(c, next, w, d);
      && |w'.log| == |w.log| + 1
      && var e := w'.log[|w.log|];
      && (!e.ran <==> AnsweredBefore(c, w.log, w.rows, key, d.request.body.value, d.begun))
      && (!e.ran ==> w'.state == w.state && w'.rows == w.rows && key in w.rows && e.reply == Reply(OK, w.rows[key].response))
  {
    hide Step, Run;
    var w := Run(c, next, World(s, map[], []), ds);
    StoreSummarizes(c, next, s, ds, key);
    StepLogs(c, next, w, d, key);
    RecalledExactlyWhen(c, w.log, w.rows, key, d.request.body.value, d.begun);
  }

  /** Some earlier call ran, was answered with a result, and is what entry k was given. */
  ghost predicate HasSource(c: Config, log: seq<Entry>, k: nat)
    requires k < |log|
  {
    exists i :: 0 <= i < k && log[i].ran && log[i].key == log[k].key && log[i].body == log[k].body &&
      Worth(c, log[i].reply) && log[k].reply == Reply(OK, c.column(Capped(log[i].reply.body))) &&
      log[k].begun - c.Micros() < log[i].answered
  }

  lemma SourceStays(c: Config, log: seq<Entry>, log': seq<Entry>, k: nat)
    requires log <= log' && k < |log| && HasSource(c, log, k)
    ensures HasSource(c, log', k)
  {
    var i :| 0 <= i < k && log[i].ran && log[i].key == log[k].key && log[i].body == log[k].body &&
      Worth(c, log[i].reply) && log[k].reply == Reply(OK, c.column(Capped(log[i].reply.body))) &&
      log[k].begun - c.Micros() < log[i].answered;
    assert log'[i] == log[i] && log'[k] == log[k];
  }

  lemma NewReplayHasSource<S>(c: Config, next: (S, Request) -> (S, Reply), w: World<S>, d: Delivery, key: Key)
    requires Injective(c) && KeyOf(c, d.request) == Some(key) && Summarized(c, w.log, w.rows, key)
    ensures var log := Step(c, next, w, d).log; |log| == |w.log| + 1 && (!log[|w.log|].ran ==> HasSource(c, log, |w.log|))
  {
    hide Step;
    StepLogs(c, next, w, d, key);
    var log := Step(c, next, w, d).log;
    if !log[|w.log|].ran {
      RecalledExactlyWhen(c, w.log, w.rows, key, d.request.body.value, d.begun);
      var first: nat, last: nat :| Summary(c, w.log, key, w.rows[key], first, last) &&
        w.log[first].body == d.request.body.value && d.begun - c.Micros() < w.log[last].answered;
      assert log[last] == w.log[last];
    }
  }

  /**
    Whatever is replayed was once answered: by the handler, with a result, to the same
    method, id and body in the same stand.  So an error is never replayed, nor an answer to
    another body.
   */
  lemma {:induction false} ReplayHasSource<S>(c: Config, next: (S, Request) -> (S, Reply), s: S, ds: seq<Delivery>, k: nat)
    requires Injective(c) && k < |Run(c, next, World(s, map[], []), ds).log|
    ensures var log := Run(c, next, World(s, map[], []), ds).log; log[k].ran || HasSource(c, log, k)
    decreases |ds|
  {
    hide Step, HasSource;
    if ds != [] {
      var n := |ds| - 1;
      var before := Run(c, next, World(s, map[], []), ds[..n]);
      var log := Run(c, next, World(s, map[], []), ds).log;
      LogGrows(c, next, before, ds[n]);
      if k < |before.log| {
        ReplayHasSource(c, next, s, ds[..n], k);
        if !log[k].ran {
          SourceStays(c, before.log, log, k);
        }
      } else {
        var key := KeyOf(c, ds[n].request).value;
        StoreSummarizes(c, next, s, ds[..n], key);
        NewReplayHasSource(c, next, before, ds[n], key);
      }
    }
  }

  lemma LogGrows<S>(c: Config, next: (S, Request) -> (S, Reply), w: World<S>, d: Delivery)
    ensures var log := Step(c, next, w, d).log;
      && w.log <= log && |log| == |w.log| + if KeyOf(c, d.request).Some? then 1 else 0
  {
  }

  // ---------- run once ----------

  /** The call is this one: same stand, method, id and body. */
  predicate Same(c: Config, d: Delivery, key: Key, body: string) {
    KeyOf(c, d.request) == Some(key) && d.request.body == Some(body)
  }

  /** A young row is what answers its call, and whatever else is served leaves it alone. */
  lemma StepRunsOnce<S>(c: Config, next: (S, Request) -> (S, Reply), w: World<S>, d: Delivery, key: Key, body: string)
    requires Injective(c) && key in w.rows && w.rows[key].bodyHash == c.hash(body)
    requires d.begun - c.Micros() < w.rows[key].at
    ensures var w' := Step(c, next, w, d);
      && key in w'.rows && w'.rows[key] == w.rows[key]
      && (Same(c, d, key, body) ==>
           && w'.state == w.state
           && w'.log == w.log + [Entry(key, body, false, Reply(OK, w.rows[key].response), d.begun, d.answered)])
  {
  }

  /**
    Once an answer is remembered, every later call that is the same one gets it while the
    window lasts, and the handler does not run for it, whatever else is served in between.
   */
  lemma {:induction false} RunsOnce<S>(c: Config, next: (S, Request) -> (S, Reply), w: World<S>, ds: seq<Delivery>,
                                       key: Key, body: string)
    requires Injective(c) && key in w.rows && w.rows[key].bodyHash == c.hash(body)
    requires forall k :: 0 <= k < |ds| ==> ds[k].begun - c.Micros() < w.rows[key].at
    ensures var w' := Run(c, next, w, ds);
      && key in w'.rows && w'.rows[key] == w.rows[key]
      && w.log <= w'.log
      && (forall k :: |w.log| <= k < |w'.log| && w'.log[k].key == key && w'.log[k].body == body ==>
           !w'.log[k].ran && w'.log[k].reply == Reply(OK, w.rows[key].response))
  {
    if ds != [] {
      var n := |ds| - 1;
      RunsOnce(c, next, w, ds[..n], key, body);
      StepRunsOnce(c, next, Run(c, next, w, ds[..n]), ds[n], key, body);
    }
  }

  /** The window as it counts: an answered call is replayed until whole milliseconds have passed. */
  lemma WindowInMilliseconds<S>(c: Config, next: (S, Request) -> (S, Reply), w: World<S>, d: Delivery, key: Key)
    requires KeyOf(c, d.request) == Some(key) && key in w.rows
    requires w.rows[key].bodyHash == c.hash(d.request.body.value) && w.rows[key].at <= d.begun
    ensures var e := Step(c, next, w, d).log[|w.log|];
      !e.ran <==> d.begun - w.rows[key].at < c.window / 1_000_000 * 1000
    ensures c.window < 1_000_000 ==> Step(c, next, w, d).log[|w.log|].ran
  {
  }

  // ---------- another body under the same id ----------

  /** A key belongs to the body it was first answered for, for good: another body always runs and is never stored. */
  lemma {:induction false} PinnedToFirstBody<S>(c: Config, next: (S, Request) -> (S, Reply), w: World<S>,
                                                ds: seq<Delivery>, key: Key)
    requires Injective(c) && key in w.rows
    ensures var w' := Run(c, next, w, ds);
      && key in w'.rows && w'.rows[key].bodyHash == w.rows[key].bodyHash
      && w.log <= w'.log
      && (forall k :: |w.log| <= k < |w'.log| && w'.log[k].key == key && c.hash(w'.log[k].body) != w.rows[key].bodyHash ==>
           w'.log[k].ran)
  {
    if ds != [] {
      var n := |ds| - 1;
      PinnedToFirstBody(c, next, w, ds[..n], key);
      StepPinned(c, next, Run(c, next, w, ds[..n]), ds[n], key);
    }
  }

  lemma StepPinned<S>(c: Config, next: (S, Request) -> (S, Reply), w: World<S>, d: Delivery, key: Key)
    requires key in w.rows
    ensures var w' := Step(c, next, w, d);
      && key in w'.rows && w'.rows[key].bodyHash == w.rows[key].bodyHash
      && w.log <= w'.log && |w'.log| <= |w.log| + 1
      && (KeyOf(c, d.request) == Some(key) && c.hash(d.request.body.value) != w.rows[key].bodyHash ==>
           w'.rows == w.rows && w'.log[|w.log|].ran)
      && (|w.log| < |w'.log| ==>
           KeyOf(c, d.request) == Some(w'.log[|w.log|].key) && d.request.body == Some(w'.log[|w.log|].body))
  {
  }

  // ---------- which calls, and what becomes of them ----------

  /**
    A call is this layer's exactly when the layer is on, the call's method is listed, its body
    is read and has an id, and it is for a stand; and its key is that stand, method and raw id.
   */
  lemma KeyExactly(c: Config, r: Request, key: Key)
    ensures KeyOf(c, r) == Some(key) <==>
      && 0 < c.window && key.rpc in c.methods
      && r.sandbox == Some(key.sandbox)
      && r.body.Some? && r.body.value != ""
      && c.decode(r.body.value) == Some(Envelope(key.rpc, Some(key.requestID))) && key.requestID != ""
  {
  }

  /** Two calls share a key exactly when they are for one stand, of one method, under one raw id. */
  lemma KeysTellApart(c: Config, r: Request, q: Request)
    requires KeyOf(c, r).Some? && KeyOf(c, q).Some?
    ensures KeyOf(c, r) == KeyOf(c, q) <==>
      r.sandbox == q.sandbox && c.decode(r.body.value) == c.decode(q.body.value)
  {
    KeyExactly(c, r, KeyOf(c, r).value);
    KeyExactly(c, q, KeyOf(c, q).value);
    hide KeyOf;
  }

  /** The key's stored answer to this body is younger than the window. */
  predicate OnFile(c: Config, rows: map<Key, Row>, key: Key, body: string, begun: int) {
    key in rows && rows[key].bodyHash == c.hash(body) && begun - rows[key].at < c.window / 1_000_000 * 1000
  }

  /**
    A call the layer leaves alone does to the handler and answers what the handler does, and
    stores nothing.  One on file is answered 200 with what is stored, and the handler does not
    run.  Any other runs, answers what the handler does, and is stored exactly when that is a
    200 whose first 64 KiB carry a result and the key is not another body's.
   */
  lemma ServesExactly<S>(c: Config, next: (S, Request) -> (S, Reply), s: S, rows: map<Key, Row>, r: Request,
                         begun: int, answered: int)
    ensures var (s', rows', reply) := Served(c, next, s, rows, r, begun, answered);
      match KeyOf(c, r)
      case None => s' == next(s, r).0 && reply == next(s, r).1 && rows' == rows
      case Some(key) =>
        var body := r.body.value;
        if OnFile(c, rows, key, body, begun) then s' == s && rows' == rows && reply == Reply(200, rows[key].response)
        else
          var kept := if |next(s, r).1.body| <= 65536 then next(s, r).1.body else next(s, r).1.body[..65536];
          var stored := next(s, r).1.status == 200 && c.hasResult(kept) &&
                        (key in rows ==> rows[key].bodyHash == c.hash(body));
          && s' == next(s, r).0 && reply == next(s, r).1
          && rows' == if stored then rows[key := Row(c.hash(body), c.column(kept), answered)] else rows
  {
    hide KeyOf;
  }
}
