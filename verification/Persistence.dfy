/** How a schedule survives in the table: its kind and text are stored, and every dispatch parses them
    again (loadScheduleFromDue and computeNextFire, which share one switch). */
module Persistence {
  import opened Basics
  import opened Schedules
  import opened Jobs

  /** The library parsers and printers. A parsed cron expression is its `Next` function. */
  datatype Library = Library(
    cron: string -> Option<Time -> Option<Time>>,
    duration: string -> Option<int>,
    instant: string -> Option<Time>,
    showDuration: int -> string,
    showInstant: Time -> string)

  datatype LoadError = BadExpression | IntervalTooShort | UnknownKind

  function Kind(s: Schedule): string {
    match s
    case Cron(_, _) => "cron"
    case Every(_) => "every"
    case At(_) => "at"
  }

  function Text(lib: Library, s: Schedule): string {
    match s
    case Cron(expr, _) => expr
    case Every(d) => lib.showDuration(d)
    case At(t) => lib.showInstant(t)
  }

  function MakeEvery(d: int): Result<Schedule, LoadError> {
    if d < SECOND then Err(IntervalTooShort) else Ok(Every(d))
  }

  function Load(lib: Library, kind: string, expr: string): Result<Schedule, LoadError> {
    if kind == "cron" then
      match lib.cron(expr)
      case None => Err(BadExpression)
      case Some(next) => Ok(Cron(expr, next))
    else if kind == "every" then
      match lib.duration(expr)
      case None => Err(BadExpression)
      case Some(d) => MakeEvery(d)
    else if kind == "at" then
      match lib.instant(expr)
      case None => Err(BadExpression)
      case Some(t) => Ok(At(t))
    else Err(UnknownKind)
  }

  function ComputeNextFire(lib: Library, kind: string, expr: string, from: Time): Result<Option<Time>, LoadError> {
    match Load(lib, kind, expr)
    case Err(e) => Err(e)
    case Ok(s) => Ok(s.Next(from))
  }

  /** The schedules that the constructors hand out. */
  ghost predicate Constructed(lib: Library, s: Schedule) {
    match s
    case Cron(expr, next) => lib.cron(expr) == Some(next)
    case Every(d) => d >= SECOND
    case At(_) => true
  }

  /** What the standard library promises: durations print losslessly, RFC 3339 keeps whole seconds. */
  ghost predicate Lawful(lib: Library) {
    && (forall d :: lib.duration(lib.showDuration(d)) == Some(d))
    && (forall t :: lib.instant(lib.showInstant(t)) == Some(t - t % SECOND))
  }

  /** Storing and loading gives the same schedule back, except for a one-shot instant with a fraction
      of a second, which loses the fraction. */
  lemma RoundTrip(lib: Library, s: Schedule)
    requires Lawful(lib) && Constructed(lib, s)
    ensures Load(lib, Kind(s), Text(lib, s)) == Ok(s) <==> (s.At? ==> s.t % SECOND == 0)
    ensures s.At? ==> Load(lib, Kind(s), Text(lib, s)) == Ok(At(s.t - s.t % SECOND))
  {
  }

  /** Exactly which stored texts load, and as what. */
  lemma LoadsIff(lib: Library, kind: string, expr: string, s: Schedule)
    ensures Load(lib, kind, expr) == Ok(s) <==>
            match s
            case Cron(text, next) => kind == "cron" && text == expr && lib.cron(expr) == Some(next)
            case Every(d) => kind == "every" && lib.duration(expr) == Some(d) && d >= 1_000_000_000
            case At(t) => kind == "at" && lib.instant(expr) == Some(t)
    ensures Load(lib, kind, expr) == Err(UnknownKind) <==> kind !in {"cron", "every", "at"}
    ensures Kind(s) == if s.Cron? then "cron" else if s.Every? then "every" else "at"
  {
  }

  /** A one-shot job registered for `t` is executed by a tick at `now` exactly when the tick comes before
      the stored (whole-second) instant and nothing else makes the tick ignore the row. Since a row is
      due only from its fire time on, the row that registration creates is never executed. */
  lemma OneShotDispatch(lib: Library, opts: JobOptions, leader: Option<bool>, tick: int, t: Time, fire: Time, now: Time)
    requires Lawful(lib)
    ensures var next := ComputeNextFire(lib, Kind(At(t)), Text(lib, At(t)), now);
            && next.Ok?
            && (next.value.Some? <==> now < t - t % SECOND)
            && (fire == t && fire <= now ==> Classify(opts, leader, tick, fire, now, next.value) == Ignore)
  {
  }
}
