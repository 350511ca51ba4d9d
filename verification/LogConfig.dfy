/**
 Reconfiguration of the loggers: the listener on the log definitions applies the difference of
 two configurations. Compared with loggers built from the last configuration alone.
 */
module LogConfig {
  import opened Prelude
  import opened LogFormatterCode

  const DEBUG := 1

  /** The pattern of a new logger, one field after the other. */
  const DEFAULT_PATTERN :=
    "%d" + "{" + "%Y-%m-%d %H:%M:%S" + "}" + ("%T" + ("%t" + ("%T" + ("%N" + ("%T" + ("%F" + ("%T" +
    ("[%p" + ("]%T" + ("[%c" + ("]%T" + ("%f" + (":%l" + ("%T" + ("%m" + ("%n" + ""))))))))))))))))

  /** A formatter is determined by its pattern, and valid if reading it leaves no error. */
  predicate IsFormatter(pattern: string) {
    !Read(pattern).1
  }

  datatype AppenderState = AppenderState(file: Option<string>, level: int, formatter: string)

  datatype LoggerState = LoggerState(level: int, appenders: seq<AppenderState>, formatter: string)

  type Loggers = map<string, LoggerState>

  /** Type 1 is a file; every other type is standard output. */
  datatype LogAppenderDefine = LogAppenderDefine(kind: int, level: int, formatter: string, file: string)

  datatype LogDefine = LogDefine(level: int, formatter: string, appenders: seq<LogAppenderDefine>)

  /** `std::set<LogDefine>`: the order and identity of its elements is that of their names. */
  type LogDefines = map<string, LogDefine>

  // ---- loggers --------------------------------------------------------------------------------

  /** `getLogger` makes a missing logger on demand. */
  function Lookup(ls: Loggers, name: string): LoggerState {
    if name in ls then ls[name] else LoggerState(DEBUG, [], DEFAULT_PATTERN)
  }

  /** A formatter that is given and valid, or the fallback. */
  function Choose(given: string, fallback: string): string {
    if given != "" && IsFormatter(given) then given else fallback
  }

  function BuildAppender(a: LogAppenderDefine, formatter: string): AppenderState {
    AppenderState(if a.kind == 1 then Some(a.file) else None, a.level, Choose(a.formatter, formatter))
  }

  function BuildAppenders(ds: seq<LogAppenderDefine>, formatter: string): (r: seq<AppenderState>)
    ensures |r| == |ds| && forall i :: 0 <= i < |ds| ==> r[i] == BuildAppender(ds[i], formatter)
  {
    seq(|ds|, i requires 0 <= i < |ds| => BuildAppender(ds[i], formatter))
  }

  /** A logger with the level and appenders of a definition, and the given formatter. */
  function Built(d: LogDefine, formatter: string): LoggerState {
    LoggerState(d.level, BuildAppenders(d.appenders, formatter), formatter)
  }

  function Apply(s: LoggerState, d: LogDefine): LoggerState {
    Built(d, Choose(d.formatter, s.formatter))
  }

  // ---- the listener ------------------------------------------------------------------------------

  predicate Changed(before: LogDefines, after: LogDefines, name: string) {
    name in after && (name !in before || before[name] != after[name])
  }

  predicate Removed(before: LogDefines, after: LogDefines, name: string) {
    name in before && name !in after
  }

  function AfterChange(ls: Loggers, before: LogDefines, after: LogDefines, name: string): LoggerState {
    if Changed(before, after, name) then Apply(Lookup(ls, name), after[name])
    else if Removed(before, after, name) then Lookup(ls, name).(level := 0, appenders := [])
    else Lookup(ls, name)
  }

  function Touched(before: LogDefines, after: LogDefines): set<string> {
    (set n | n in after && Changed(before, after, n)) + (set n | n in before && Removed(before, after, n))
  }

  function Listener(ls: Loggers, before: LogDefines, after: LogDefines): Loggers {
    map n | n in ls.Keys + Touched(before, after) :: AfterChange(ls, before, after, n)
  }

  datatype System = System(loggers: Loggers, defines: LogDefines)

  /** `ConfigVar::setValue`: the listener runs only for a new value, before it is stored. */
  function SetValue(s: System, v: LogDefines): System {
    if v == s.defines then s else System(Listener(s.loggers, s.defines, v), v)
  }

  datatype Event = Set(defines: LogDefines) | Get(name: string)

  function Next(s: System, e: Event): System {
    match e
    case Set(v) => SetValue(s, v)
    case Get(name) => s.(loggers := s.loggers[name := Lookup(s.loggers, name)])
  }

  function Exec(s: System, es: seq<Event>): System
    decreases |es|
  {
    if es == [] then s else Exec(Next(s, es[0]), es[1..])
  }

  // ---- what the history says about one logger ------------------------------------------------------

  /** The last valid formatter any configuration gave the logger, or the one it had at first. */
  function LastFormatter(es: seq<Event>, name: string, first: string): string
    decreases |es|
  {
    if es == [] then first
    else
      LastFormatter(es[1..], name,
        if es[0].Set? && name in es[0].defines then Choose(es[0].defines[name].formatter, first) else first)
  }

  predicate EverDefined(es: seq<Event>, name: string) {
    exists i :: 0 <= i < |es| && es[i].Set? && name in es[i].defines
  }

  /** The logger is in the state its definition and its formatter call for. */
  predicate Settled(s: System, name: string, formatter: string) {
    && Lookup(s.loggers, name).formatter == formatter
    && (name in s.defines ==>
          && Lookup(s.loggers, name) == Built(s.defines[name], formatter)
          && Choose(s.defines[name].formatter, formatter) == formatter)
  }

  lemma NextSettles(s: System, e: Event, name: string, formatter: string)
    requires Settled(s, name, formatter)
    ensures Settled(Next(s, e), name, LastFormatter([e], name, formatter))
  {
    assert [e][1..] == [];
    if e.Set? {
      assert name !in s.loggers && name !in Touched(s.defines, e.defines) ==> name !in Next(s, e).loggers;
    }
  }

  lemma {:induction false} ExecSettles(s: System, es: seq<Event>, name: string, formatter: string)
    requires Settled(s, name, formatter)
    ensures Settled(Exec(s, es), name, LastFormatter(es, name, formatter))
    decreases |es|
  {
    if es != [] {
      NextSettles(s, es[0], name, formatter);
      assert [es[0]][1..] == [];
      var f := LastFormatter([es[0]], name, formatter);
      ExecSettles(Next(s, es[0]), es[1..], name, f);
    }
  }

  /**
   After any history of configurations and look-ups, whatever the loggers were like before the
   first one: a defined logger is the one built from its last definition, with the last valid
   formatter of its history.
   */
  lemma DefinedLoggersAreBuilt(ls: Loggers, es: seq<Event>, name: string)
    requires name in Exec(System(ls, map[]), es).defines
    ensures var s := Exec(System(ls, map[]), es);
      Lookup(s.loggers, name) == Built(s.defines[name], LastFormatter(es, name, Lookup(ls, name).formatter))
  {
    ExecSettles(System(ls, map[]), es, name, Lookup(ls, name).formatter);
  }

  /** Given in a definition, and readable without an error. */
  predicate Usable(pattern: string) {
    pattern != "" && !Read(pattern).1
  }

  /**
   What a defined logger looks like after every history, entry by entry of its last definition:
   type 1 is a file and every other type standard output, and an entry without a usable
   formatter of its own has that of the logger.
   */
  lemma DefinedLoggerFollowsItsDefinition(ls: Loggers, es: seq<Event>, name: string)
    requires name in Exec(System(ls, map[]), es).defines
    ensures var s := Exec(System(ls, map[]), es); var d := s.defines[name];
      && name in s.loggers
      && var l := s.loggers[name];
         && l.level == d.level && |l.appenders| == |d.appenders|
         && (Usable(d.formatter) ==> l.formatter == d.formatter)
         && forall i :: 0 <= i < |d.appenders| ==> var a, b := d.appenders[i], l.appenders[i];
              && (forall file :: b.file == Some(file) <==> a.kind == 1 && a.file == file)
              && b.level == a.level
              && b.formatter == (if Usable(a.formatter) then a.formatter else l.formatter)
  {
    DefinedLoggersAreBuilt(ls, es, name);
    ExecSettles(System(ls, map[]), es, name, Lookup(ls, name).formatter);
    ExecFinds(System(ls, map[]), es, name);
  }

  /** A defined logger exists. */
  lemma {:induction false} ExecFinds(s: System, es: seq<Event>, name: string)
    requires name in s.defines ==> name in s.loggers
    ensures name in Exec(s, es).defines ==> name in Exec(s, es).loggers
    decreases |es|
  {
    if es != [] {
      ExecFinds(Next(s, es[0]), es[1..], name);
    }
  }

  /** The event gives the logger a usable formatter. */
  predicate Gives(e: Event, name: string) {
    e.Set? && name in e.defines && Usable(e.defines[name].formatter)
  }

  /** Event i is the last one that gives it one. */
  predicate GivesLast(es: seq<Event>, name: string, i: nat) {
    i < |es| && Gives(es[i], name) && forall j :: i < j < |es| ==> !Gives(es[j], name)
  }

  predicate GivesNone(es: seq<Event>, name: string) {
    forall i :: 0 <= i < |es| ==> !Gives(es[i], name)
  }

  lemma {:induction false} LastFormatterIs(es: seq<Event>, name: string, first: string)
    ensures forall i: nat :: GivesLast(es, name, i) ==> LastFormatter(es, name, first) == es[i].defines[name].formatter
    ensures GivesNone(es, name) ==> LastFormatter(es, name, first) == first
    decreases |es|
  {
    if es != [] {
      var next := if es[0].Set? && name in es[0].defines then Choose(es[0].defines[name].formatter, first) else first;
      assert next == if Gives(es[0], name) then es[0].defines[name].formatter else first;
      assert forall i :: 0 < i < |es| ==> es[i] == es[1..][i - 1];
      LastFormatterIs(es[1..], name, next);
      forall i: nat | GivesLast(es, name, i) ensures LastFormatter(es, name, first) == es[i].defines[name].formatter {
        if i == 0 {
          assert GivesNone(es[1..], name);
        } else {
          assert GivesLast(es[1..], name, i - 1);
        }
      }
    }
  }

  /** The formatter of a defined logger is the last usable one that a configuration gave it, or its first. */
  lemma FormatterIsLastGiven(ls: Loggers, es: seq<Event>, name: string)
    requires name in Exec(System(ls, map[]), es).defines
    ensures var f := Lookup(Exec(System(ls, map[]), es).loggers, name).formatter;
      && (forall i: nat :: GivesLast(es, name, i) ==> f == es[i].defines[name].formatter)
      && (GivesNone(es, name) ==> f == if name in ls then ls[name].formatter else DEFAULT_PATTERN)
  {
    ExecSettles(System(ls, map[]), es, name, Lookup(ls, name).formatter);
    LastFormatterIs(es, name, Lookup(ls, name).formatter);
  }

  lemma RebuildSettles(ls: Loggers, v: LogDefines, name: string)
    requires name in v
    ensures var s, f := SetValue(System(ls, map[]), v), Choose(v[name].formatter, Lookup(ls, name).formatter);
      s.defines == v && Lookup(s.loggers, name) == Built(v[name], f)
  {
    NextSettles(System(ls, map[]), Set(v), name, Lookup(ls, name).formatter);
    assert [Set(v)][1..] == [];
  }

  /**
   The incremental result is the one the last configuration alone would give, exactly when the
   definition has a valid formatter of its own or no earlier one has left another in the logger.
   */
  lemma IncrementalEqualsRebuildIff(ls: Loggers, es: seq<Event>, name: string)
    requires name in Exec(System(ls, map[]), es).defines
    ensures var s, first := Exec(System(ls, map[]), es), Lookup(ls, name).formatter; var d := s.defines[name];
      Lookup(s.loggers, name) == Lookup(SetValue(System(ls, map[]), s.defines).loggers, name)
      <==> (d.formatter != "" && IsFormatter(d.formatter)) || LastFormatter(es, name, first) == first
  {
    ExecSettles(System(ls, map[]), es, name, Lookup(ls, name).formatter);
    RebuildSettles(ls, Exec(System(ls, map[]), es).defines, name);
  }

  /** Levels, kinds and files never depend on the history. */
  lemma LevelsAndFilesEqualRebuild(ls: Loggers, es: seq<Event>, name: string)
    requires name in Exec(System(ls, map[]), es).defines
    ensures var s := Exec(System(ls, map[]), es);
      var a, b := Lookup(s.loggers, name), Lookup(SetValue(System(ls, map[]), s.defines).loggers, name);
      && a.level == b.level && |a.appenders| == |b.appenders|
      && forall i :: 0 <= i < |a.appenders| ==>
           a.appenders[i].file == b.appenders[i].file && a.appenders[i].level == b.appenders[i].level
  {
    ExecSettles(System(ls, map[]), es, name, Lookup(ls, name).formatter);
    RebuildSettles(ls, Exec(System(ls, map[]), es).defines, name);
  }

  // ---- loggers that are not defined -----------------------------------------------------------------

  predicate Idle(s: LoggerState) {
    s.level == 0 && s.appenders == []
  }

  lemma {:induction false} RemovedStays(s: System, es: seq<Event>, name: string)
    requires name in s.defines || Idle(Lookup(s.loggers, name))
    ensures name in Exec(s, es).defines || Idle(Lookup(Exec(s, es).loggers, name))
    decreases |es|
  {
    if es != [] {
      RemovedStays(Next(s, es[0]), es[1..], name);
    }
  }

  /** A logger that was defined and is no more ends at level 0 without appenders; others are not touched. */
  lemma {:induction false} UndefinedLoggers(s: System, es: seq<Event>, name: string)
    requires name !in Exec(s, es).defines && name !in s.defines
    ensures if EverDefined(es, name) then Idle(Lookup(Exec(s, es).loggers, name))
            else Lookup(Exec(s, es).loggers, name) == if name in s.loggers then s.loggers[name] else LoggerState(1, [], DEFAULT_PATTERN)
    decreases |es|
  {
    if es != [] {
      assert forall i :: 0 <= i < |es[1..]| ==> es[1..][i] == es[i + 1];
      var s1 := Next(s, es[0]);
      if name in s1.defines {
        assert es[0].Set? && name in es[0].defines;
        RemovedStays(s1, es[1..], name);
      } else {
        assert !(es[0].Set? && name in es[0].defines);
        UndefinedLoggers(s1, es[1..], name);
        if EverDefined(es, name) {
          var i :| 0 <= i < |es| && es[i].Set? && name in es[i].defines;
          assert es[1..][i - 1] == es[i];
        }
      }
    }
  }
}
