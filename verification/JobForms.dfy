/** What a model may ask for when it creates a job or schedules a relay, and what the rows made of it are like. */
module JobForms {
  import opened Wrappers
  import opened JobRows
  import opened Staging
  import S = JobSlice

  const MAX_TTL_SECONDS := 30 * 24 * 3600
  const MAX_NAME_CHARS := 80
  const MAX_PROMPT_CHARS := 2000
  const DAY_SECONDS := 86400
  const DEFAULT_RELAY_NAME := "message to spouse"

  datatype FormError =
    | BadKind | BadName | BadPrompt | BadEvery | BadTtl | WatchIsNoReminder | BadStart | BadDelay
    | BothTimes | SayVerbatim | JobInJob | NoFirstText

  /** The arguments of a call. Optional ones may be absent; names are squeezed and prompts stripped. */
  datatype Asked = Asked(
    kind: Option<Kind>,
    name: string,
    prompt: string,
    everySeconds: int,
    ttlSeconds: Option<int>,
    once: Option<bool>,
    verbatim: Option<bool>,
    startAt: Option<string>,
    inSeconds: Option<int>)

  /** The two checks on text: a prompt that wants another job, and a local date and time. */
  datatype Texts = Texts(asksForAnotherJob: string -> bool, isLocalTime: string -> bool)

  predicate IsWordStart(c: char) { 'A' <= c <= 'Z' || 'a' <= c <= 'z' || '0' <= c <= '9' }

  predicate IsJobName(s: string) {
    1 <= |s| <= MAX_NAME_CHARS && IsWordStart(s[0]) && forall i :: 0 < i < |s| ==> IsWordStart(s[i]) || s[i] in " _.-"
  }

  /** What every accepted job is like, however it was asked for. */
  predicate WellMade(spec: JobCreate, texts: Texts) {
    && IsJobName(spec.name) && 0 < |spec.prompt| <= MAX_PROMPT_CHARS
    && spec.everySeconds >= MIN_EVERY_SECONDS
    && (if spec.kind.Schedule? then spec.ttlSeconds.None?
        else spec.ttlSeconds.Some? && spec.everySeconds <= spec.ttlSeconds.value <= MAX_TTL_SECONDS)
    && (spec.kind.Watch? ==> !spec.once && !spec.verbatim)
    && (spec.startAt.Some? ==> spec.inSeconds.None? && texts.isLocalTime(spec.startAt.value))
    && (spec.inSeconds.Some? ==> spec.inSeconds.value >= MIN_EVERY_SECONDS)
    && (spec.verbatim ==> spec.startAt.Some? || spec.inSeconds.Some?)
    && (!spec.verbatim ==> !texts.asksForAnotherJob(spec.prompt))
  }

  function Or(b: Option<bool>, default: bool): bool { if b.Some? then b.value else default }

  /** The job these arguments describe, absent flags being false. */
  function Described(asked: Asked): JobCreate
    requires asked.kind.Some?
  {
    JobCreate(asked.kind.value, asked.name, asked.prompt, asked.everySeconds, asked.ttlSeconds, asked.startAt,
              asked.inSeconds, Or(asked.once, false), Or(asked.verbatim, false))
  }

  /** Accepted exactly when the job is well made and a one-time job says whether it is a reminder. */
  method ParseCreate(asked: Asked, texts: Texts) returns (r: Result<JobCreate, FormError>)
    ensures r.Success? <==>
              && asked.kind.Some? && WellMade(Described(asked), texts)
              && (asked.once == Some(true) ==> asked.verbatim.Some?)
    ensures r.Success? ==> r.value == Described(asked)
  {
    if asked.kind.None? {
      return Failure(BadKind);
    }
    var kind := asked.kind.value;
    if !IsJobName(asked.name) {
      return Failure(BadName);
    }
    if asked.prompt == "" || |asked.prompt| > MAX_PROMPT_CHARS {
      return Failure(BadPrompt);
    }
    if asked.everySeconds < MIN_EVERY_SECONDS {
      return Failure(BadEvery);
    }
    if kind.Schedule? {
      if asked.ttlSeconds.Some? {
        return Failure(BadTtl);
      }
    } else if asked.ttlSeconds.None? || asked.ttlSeconds.value < asked.everySeconds
              || asked.ttlSeconds.value > MAX_TTL_SECONDS {
      return Failure(BadTtl);
    }
    var once, verbatim := Or(asked.once, false), Or(asked.verbatim, false);
    if kind.Watch? && (once || verbatim) {
      return Failure(WatchIsNoReminder);
    }
    if asked.startAt.Some? && !texts.isLocalTime(asked.startAt.value) {
      return Failure(BadStart);
    }
    if asked.inSeconds.Some? && asked.inSeconds.value < MIN_EVERY_SECONDS {
      return Failure(BadDelay);
    }
    if asked.startAt.Some? && asked.inSeconds.Some? {
      return Failure(BothTimes);
    }
    if once && asked.verbatim.None? {
      return Failure(SayVerbatim);
    }
    if !verbatim && texts.asksForAnotherJob(asked.prompt) {
      return Failure(JobInJob);
    }
    if verbatim && asked.startAt.None? && asked.inSeconds.None? {
      return Failure(NoFirstText);
    }
    return Success(JobCreate(kind, asked.name, asked.prompt, asked.everySeconds, asked.ttlSeconds, asked.startAt,
                             asked.inSeconds, once, verbatim));
  }

  /** The timing of a relay: none to send on the yes, else a job that sends later. Absent fields have defaults. */
  method ParseRelayWhen(name: Option<string>, every: Option<int>, once: Option<bool>, startAt: Option<string>,
                        inSeconds: Option<int>, texts: Texts) returns (r: Result<Option<JobCreate>, FormError>)
    ensures startAt.None? && inSeconds.None? <==> r == Success(None)
    ensures r.Success? && r.value.Some? ==>
              var spec := r.value.value;
              && WellMade(spec, texts) && spec.kind.Schedule? && spec.verbatim
              && spec.once == Or(once, true) && (name.Some? ==> spec.name == name.value)
              && (every.Some? ==> spec.everySeconds == every.value)
              && spec.startAt == startAt && spec.inSeconds == inSeconds
  {
    if startAt.None? && inSeconds.None? {
      return Success(None);
    }
    var asked := Asked(Some(Schedule), if name.Some? then name.value else DEFAULT_RELAY_NAME, "relay",
                       if every.Some? then every.value else DAY_SECONDS, None, Some(Or(once, true)), Some(true),
                       startAt, inSeconds);
    var parsed := ParseCreate(asked, texts);
    return if parsed.Failure? then Failure(parsed.error) else Success(Some(parsed.value));
  }

  /**
   Every row the tools insert says what the call asked for and is one the runner can start from, and none is due in its
   first minute unless a named time says so: the text the person sees first is the reply, not the job.
   */
  lemma InsertedRowsAreNewborn(rows: Rows, after: Rows, agent: string, spec: JobCreate, texts: Texts, relay: bool,
                               now: Time, tainted: bool, soon: Time) returns (id: string)
    requires WellMade(spec, texts) && Inserted(rows, after, agent, spec, relay, now, tainted)
    requires relay ==> spec.kind.Schedule?
    requires now <= soon < now + MIN_EVERY_SECONDS as real
    ensures id !in rows && id in after && rows == after - {id} && S.Newborn(after[id])
    ensures var about := after[id].about;
            && about.id == id && about.agent == agent && about.kind == spec.kind && about.name == spec.name
            && about.prompt == spec.prompt && about.once == spec.once && about.verbatim == spec.verbatim
            && about.tainted == tainted && about.relay == relay && about.createdAt == now
            && about.ttlSeconds == spec.ttlSeconds && (spec.ttlSeconds.None? ==> about.expiresAt.None?)
    ensures after[id].everySeconds == spec.everySeconds
    ensures spec.inSeconds.Some? ==> after[id].nextRunAt == now + spec.inSeconds.value as real
    ensures spec.inSeconds.None? && spec.startAt.None? ==> after[id].nextRunAt == now + spec.everySeconds as real
    ensures spec.ttlSeconds.Some? ==>
              after[id].about.expiresAt ==
                Some(spec.ttlSeconds.value as real
                     + if spec.startAt.Some? || spec.inSeconds.Some? then after[id].nextRunAt else now)
    ensures spec.startAt.None? ==> !after[id].Due(soon)
  {
    var made, first :| made !in rows && after == rows[made := NewRow(made, agent, spec, now, first, relay, tainted)]
                       && (spec.inSeconds.Some? ==> first == now + spec.inSeconds.value as real)
                       && (spec.inSeconds.None? && spec.startAt.None? ==> first == now + spec.everySeconds as real);
    id := made;
    assert rows == after - {id};
  }
}
