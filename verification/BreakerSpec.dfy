/** The per-key breakers of internal/cli/breaker/breaker.go, as values. */
module BreakerSpec {
  import opened SubBreakerSpec

  type Breakers = map<string, State>

  /** An operation on one key. `created` is the clock reading a missing breaker would be created with. */
  datatype KeyedOp = KeyedOp(key: string, created: int, op: Op)

  function Lookup(bs: Breakers, key: string, created: int): State {
    if key in bs then bs[key] else Fresh(created)
  }

  function Apply(cfg: Settings, bs: Breakers, k: KeyedOp): Breakers
    requires 0 < cfg.interval
  {
    bs[k.key := Step(cfg, Lookup(bs, k.key, k.created), k.op)]
  }

  predicate Answer(cfg: Settings, bs: Breakers, k: KeyedOp)
    requires 0 < cfg.interval
  {
    Admits(cfg, Lookup(bs, k.key, k.created), k.op)
  }

  function RunAll(cfg: Settings, bs: Breakers, ops: seq<KeyedOp>): Breakers
    requires 0 < cfg.interval
  {
    if ops == [] then bs else Apply(cfg, RunAll(cfg, bs, ops[..|ops| - 1]), ops[|ops| - 1])
  }

  /** The answers given to the requests on `key`, in order. */
  function Answers(cfg: Settings, bs: Breakers, ops: seq<KeyedOp>, key: string): seq<bool>
    requires 0 < cfg.interval
  {
    if ops == [] then []
    else
      var before, k := ops[..|ops| - 1], ops[|ops| - 1];
      if k.key == key && k.op.Allow? then
        Answers(cfg, bs, before, key) + [Answer(cfg, RunAll(cfg, bs, before), k)]
      else Answers(cfg, bs, before, key)
  }

  function Project(ops: seq<KeyedOp>, key: string): seq<Op> {
    if ops == [] then []
    else
      var before, k := ops[..|ops| - 1], ops[|ops| - 1];
      if k.key == key then Project(before, key) + [k.op] else Project(before, key)
  }

  /** When the breaker of `key` came into being: at the first operation on the key. */
  function Birth(ops: seq<KeyedOp>, key: string): int {
    if ops == [] then 0
    else
      var before, k := ops[..|ops| - 1], ops[|ops| - 1];
      if k.key == key && Project(before, key) == [] then k.created else Birth(before, key)
  }

  /** The answers a lone breaker gives to the requests among its operations. */
  function LoneAnswers(cfg: Settings, s: State, ops: seq<Op>): seq<bool>
    requires 0 < cfg.interval
  {
    if ops == [] then []
    else
      var before, op := ops[..|ops| - 1], ops[|ops| - 1];
      if op.Allow? then LoneAnswers(cfg, s, before) + [Admits(cfg, Run(cfg, s, before), op)]
      else LoneAnswers(cfg, s, before)
  }

  /** The breaker of `key` as it is at first: given, or created at the first operation on the key. */
  function Alone(bs: Breakers, ops: seq<KeyedOp>, key: string): State {
    Lookup(bs, key, Birth(ops, key))
  }

  /** Keys do not interfere: in any interleaving the state of a key, and every answer given for it, are
      those of one breaker fed only that key's operations. */
  lemma {:induction false} PerKeyProjection(cfg: Settings, bs: Breakers, ops: seq<KeyedOp>, key: string)
    requires 0 < cfg.interval
    ensures var mine, alone := Project(ops, key), Alone(bs, ops, key);
            && (key in RunAll(cfg, bs, ops) <==> key in bs || mine != [])
            && (key in bs || mine != [] ==> RunAll(cfg, bs, ops)[key] == Run(cfg, alone, mine))
            && Answers(cfg, bs, ops, key) == LoneAnswers(cfg, alone, mine)
  {
    hide Step, Admits, Run, LoneAnswers;
    LoneStart(cfg, Alone(bs, ops, key));
    if ops != [] {
      var before, k := ops[..|ops| - 1], ops[|ops| - 1];
      PerKeyProjection(cfg, bs, before, key);
      if k.key == key {
        var mine := Project(before, key);
        LoneStart(cfg, Alone(bs, before, key));
        LoneNext(cfg, Alone(bs, ops, key), mine, k.op);
      }
    }
  }

  lemma LoneStart(cfg: Settings, s: State)
    requires 0 < cfg.interval
    ensures Run(cfg, s, []) == s && LoneAnswers(cfg, s, []) == []
  {}

  lemma LoneNext(cfg: Settings, s: State, ops: seq<Op>, op: Op)
    requires 0 < cfg.interval
    ensures Run(cfg, s, ops + [op]) == Step(cfg, Run(cfg, s, ops), op)
    ensures LoneAnswers(cfg, s, ops + [op])
         == LoneAnswers(cfg, s, ops) + if op.Allow? then [Admits(cfg, Run(cfg, s, ops), op)] else []
  {
    hide Step, Admits;
    assert (ops + [op])[..|ops|] == ops;
  }

  lemma AllNext(cfg: Settings, bs: Breakers, ops: seq<KeyedOp>, k: KeyedOp, key: string)
    requires 0 < cfg.interval
    ensures RunAll(cfg, bs, ops + [k]) == Apply(cfg, RunAll(cfg, bs, ops), k)
    ensures Answers(cfg, bs, ops + [k], key)
         == Answers(cfg, bs, ops, key)
            + if k.key == key && k.op.Allow? then [Answer(cfg, RunAll(cfg, bs, ops), k)] else []
  {
    hide Apply, Answer;
    assert (ops + [k])[..|ops|] == ops;
  }
}
