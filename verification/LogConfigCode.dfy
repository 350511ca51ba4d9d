/**
 Loggers, their manager and the configuration variable as objects updated in place: the listener
 of `LogIniter` and `ConfigVar::setValue` compute what `LogConfig` states.
 */
module LogConfigCode {
  import opened Prelude
  import opened LogFormatterCode
  import opened LogConfig

  class LogAppender {
    const file: Option<string>
    var level: int
    var formatter: Option<string>   // the pattern of the formatter, when there is one

    constructor (file: Option<string>)
      ensures this.file == file && level == DEBUG && formatter == None
    {
      this.file, level, formatter := file, DEBUG, None;
    }

    function View(): AppenderState
      reads this
    {
      AppenderState(file, level, if formatter.Some? then formatter.value else "")
    }
  }

  function Views(appenders: seq<LogAppender>): (r: seq<AppenderState>)
    reads appenders
    ensures |r| == |appenders| && forall i :: 0 <= i < |appenders| ==> r[i] == appenders[i].View()
  {
    seq(|appenders|, i requires 0 <= i < |appenders| reads appenders => appenders[i].View())
  }

  class Logger {
    const name: string
    var level: int
    var appenders: seq<LogAppender>
    var formatter: string

    constructor (name: string)
      ensures this.name == name && View() == LoggerState(DEBUG, [], DEFAULT_PATTERN) && appenders == []
    {
      this.name, level, appenders, formatter := name, DEBUG, [], DEFAULT_PATTERN;
    }

    function View(): LoggerState
      reads this, appenders
    {
      LoggerState(level, Views(appenders), formatter)
    }

    /** An appender without a formatter gets that of the logger. */
    method AddAppender(appender: LogAppender)
      modifies this`appenders, appender`formatter
      ensures appenders == old(appenders) + [appender]
      ensures appender.formatter == if old(appender.formatter).Some? then old(appender.formatter) else Some(formatter)
    {
      if appender.formatter == None {
        appender.formatter := Some(formatter);
      }
      appenders := appenders + [appender];
    }

    method ClearAppenders()
      modifies this`appenders
      ensures appenders == []
    {
      appenders := [];
    }

    /** Sets the formatter of the logger and of every appender it has now. */
    method AssignFormatter(pattern: string)
      modifies this`formatter, appenders
      ensures formatter == pattern && forall a :: a in appenders ==> a.formatter == Some(pattern)
      ensures forall a :: a in appenders ==> a.level == old(a.level)
    {
      formatter := pattern;
      var i := 0;
      while i < |appenders|
        invariant 0 <= i <= |appenders| && formatter == pattern
        invariant forall j :: 0 <= j < i ==> appenders[j].formatter == Some(pattern)
        invariant forall a :: a in appenders ==> a.level == old(a.level)
      {
        appenders[i].formatter := Some(pattern);
        i := i + 1;
      }
    }

    /** An invalid pattern is refused. */
    method SetFormatter(pattern: string)
      modifies this`formatter, appenders
      ensures formatter == if IsFormatter(pattern) then pattern else old(formatter)
      ensures IsFormatter(pattern) ==> forall a :: a in appenders ==> a.formatter == Some(pattern)
      ensures !IsFormatter(pattern) ==> forall a :: a in appenders ==> a.formatter == old(a.formatter)
      ensures forall a :: a in appenders ==> a.level == old(a.level)
    {
      var f := new LogFormatter(pattern);
      if f.error {
        return;
      }
      AssignFormatter(pattern);
    }

    /** One appender of a definition, as the listener makes and adds it. */
    method AddDefined(d: LogAppenderDefine)
      modifies this`appenders
      ensures |appenders| == |old(appenders)| + 1 && appenders[..|old(appenders)|] == old(appenders)
      ensures var a := appenders[|old(appenders)|]; fresh(a) && a.View() == BuildAppender(d, formatter)
    {
      var ap: LogAppender;
      if d.kind == 1 {
        ap := new LogAppender(Some(d.file));
      } else {
        ap := new LogAppender(None);
      }
      ap.level := d.level;
      if d.formatter != "" {
        var f := new LogFormatter(d.formatter);
        if !f.error {
          ap.formatter := Some(d.formatter);
        }
      }
      AddAppender(ap);
    }

    /** What the listener does to a logger whose definition is new or changed. */
    method Define(d: LogDefine)
      modifies this, appenders
      ensures View() == Apply(old(View()), d)
      ensures forall a :: a in appenders ==> fresh(a)
    {
      level := d.level;
      if d.formatter != "" {
        SetFormatter(d.formatter);
      }
      ClearAppenders();
      var i := 0;
      while i < |d.appenders|
        invariant 0 <= i <= |d.appenders| && |appenders| == i
        invariant level == d.level && formatter == Choose(d.formatter, old(formatter))
        invariant forall j :: 0 <= j < i ==> fresh(appenders[j]) && appenders[j].View() == BuildAppender(d.appenders[j], formatter)
      {
        ghost var before := appenders;
        AddDefined(d.appenders[i]);
        assert forall j :: 0 <= j < i ==> appenders[j] == before[j];
        i := i + 1;
      }
    }

    method Undefine()
      modifies this`level, this`appenders
      ensures View() == old(View()).(level := 0, appenders := []) && appenders == []
    {
      level := 0;
      ClearAppenders();
    }
  }

  /** The listener half-way: the names in `done` have been looked at. */
  function Partly(ls: Loggers, before: LogDefines, after: LogDefines, done: set<string>): Loggers {
    map n | n in ls.Keys + Touched(before, after) * done ::
      if n in done then AfterChange(ls, before, after, n) else Lookup(ls, n)
  }

  lemma OneMore(ls: Loggers, before: LogDefines, after: LogDefines, done: set<string>, n: string)
    requires n !in done
    ensures Lookup(Partly(ls, before, after, done), n) == Lookup(ls, n)
    ensures Partly(ls, before, after, done + {n}) ==
      if n in Touched(before, after) then Partly(ls, before, after, done)[n := AfterChange(ls, before, after, n)]
      else Partly(ls, before, after, done)
  {
    assert Touched(before, after) * (done + {n}) ==
      if n in Touched(before, after) then Touched(before, after) * done + {n} else Touched(before, after) * done;
  }

  /** The logger is looked up, and perhaps made, before it is changed. */
  lemma LookedUpThenSet(ls: Loggers, n: string, s: LoggerState)
    ensures ls[n := Lookup(ls, n)][n := s] == ls[n := s]
  {
  }

  lemma OneRemoved(ls: Loggers, before: LogDefines, after: LogDefines, done: set<string>, n: string)
    requires n !in done && Removed(before, after, n)
    ensures var p := Partly(ls, before, after, done);
      Partly(ls, before, after, done + {n}) == p[n := Lookup(p, n).(level := 0, appenders := [])]
  {
    OneMore(ls, before, after, done, n);
  }

  lemma OneChanged(ls: Loggers, before: LogDefines, after: LogDefines, done: set<string>, n: string)
    requires n !in done && Changed(before, after, n)
    ensures var p := Partly(ls, before, after, done);
      Partly(ls, before, after, done + {n}) == p[n := Apply(Lookup(p, n), after[n])]
  {
    OneMore(ls, before, after, done, n);
  }

  /** Nothing is done yet; the first loop is over and the second begins; everything is done. */
  lemma NothingYet(ls: Loggers, before: LogDefines, after: LogDefines)
    ensures Partly(ls, before, after, {} + (after.Keys - after.Keys)) == ls
    ensures {} + (after.Keys - {}) == after.Keys + (before.Keys - before.Keys)
    ensures Partly(ls, before, after, after.Keys + (before.Keys - {})) == Listener(ls, before, after)
  {
    assert {} + (after.Keys - after.Keys) == {} && Touched(before, after) * {} == {};
    assert Touched(before, after) * (after.Keys + (before.Keys - {})) == Touched(before, after);
  }

  lemma Visit(start: set<string>, all: set<string>, todo: set<string>, name: string)
    requires name in todo && todo <= all
    ensures start + (all - (todo - {name})) == start + (all - todo) + {name}
    ensures name in all && todo - {name} <= all && |todo - {name}| < |todo|
    ensures name in start + (all - todo) <==> name in start
  {
  }

  class LoggerManager {
    var loggers: map<string, Logger>
    ghost var repr: set<object>   // every logger and every appender

    ghost predicate Owned()
      reads this, repr
    {
      forall n :: n in loggers ==>
        loggers[n] in repr && loggers[n].name == n && forall a :: a in loggers[n].appenders ==> a in repr
    }

    /** Names name loggers, and no two loggers share an appender. */
    ghost predicate Valid()
      reads this, repr
    {
      Owned() && this !in repr
      && forall n, m, a :: n in loggers && m in loggers && n != m && a in loggers[n].appenders ==> a !in loggers[m].appenders
    }

    ghost function View(): Loggers
      requires Owned()
      reads this, repr
    {
      map n | n in loggers :: loggers[n].View()
    }

    constructor ()
      ensures Valid() && View() == map[] && fresh(repr)
    {
      loggers, repr := map[], {};
    }

    method GetLogger(name: string) returns (l: Logger)
      requires Valid()
      modifies this
      ensures Valid() && name in loggers && loggers[name] == l && fresh(repr - old(repr))
      ensures View() == old(View())[name := Lookup(old(View()), name)]
    {
      if name in loggers {
        l := loggers[name];
        assert View()[name] == l.View() && View() == View()[name := l.View()];
        return;
      }
      l := Make(name);
    }

    /** A logger that nobody has looked up before. */
    method Make(name: string) returns (l: Logger)
      requires Valid() && name !in loggers
      modifies this
      ensures Valid() && loggers == old(loggers)[name := l] && fresh(repr - old(repr))
      ensures View() == old(View())[name := Lookup(old(View()), name)]
    {
      l := new Logger(name);
      loggers := loggers[name := l];
      repr := repr + {l};
    }

    /** When one logger changes and gets new appenders, the others stay as they are. */
    twostate lemma OnlyOneChanged(name: string)
      requires old(Valid()) && loggers == old(loggers) && name in loggers && old(repr) <= repr && this !in repr
      requires forall n :: n in loggers && n != name ==>
        unchanged(loggers[n]) && forall a :: a in loggers[n].appenders ==> unchanged(a)
      requires forall a :: a in loggers[name].appenders ==> fresh(a) && a in repr
      ensures Valid()
      ensures View() == old(View())[name := loggers[name].View()]
    {
      forall n | n in loggers && n != name ensures loggers[n].View() == old(loggers[n].View()) {
        ghost var cs := loggers[n].appenders;
        assert cs == old(loggers[n].appenders);
        forall i | 0 <= i < |cs| ensures cs[i].View() == old(cs[i].View()) {
          assert cs[i] in cs && unchanged(cs[i]);
        }
        assert Views(cs) == old(Views(cs));
      }
    }

    /** The first branch of the listener, on the logger it found. */
    method Define(l: Logger, d: LogDefine)
      requires Valid() && l.name in loggers && loggers[l.name] == l
      modifies this`repr, l, l.appenders
      ensures Valid() && fresh(repr - old(repr))
      ensures View() == old(View())[l.name := Apply(old(View())[l.name], d)]
    {
      l.Define(d);
      repr := repr + set a | a in l.appenders;
      OnlyOneChanged(l.name);
    }

    /** The second branch, for a name that is no longer defined. */
    method Undefine(l: Logger)
      requires Valid() && l.name in loggers && loggers[l.name] == l
      modifies l
      ensures Valid() && repr == old(repr)
      ensures View() == old(View())[l.name := old(View())[l.name].(level := 0, appenders := [])]
    {
      l.Undefine();
      OnlyOneChanged(l.name);
    }

    /** The body of the first loop of the listener. */
    method DefineIfChanged(name: string, before: LogDefines, after: LogDefines, ghost v: Loggers, ghost done: set<string>)
      requires Valid() && name in after && name !in done && View() == Partly(v, before, after, done)
      modifies this, repr
      ensures Valid() && fresh(repr - old(repr)) && View() == Partly(v, before, after, done + {name})
    {
      if name in before && after[name] == before[name] {
        OneMore(v, before, after, done, name);
        return;
      }
      OneChanged(v, before, after, done, name);
      ghost var p := View();
      var l := GetLogger(name);
      Define(l, after[name]);
      LookedUpThenSet(p, name, Apply(Lookup(p, name), after[name]));
    }

    /** The body of the second loop. */
    method UndefineIfRemoved(name: string, before: LogDefines, after: LogDefines, ghost v: Loggers, ghost done: set<string>)
      requires Valid() && name in before && (name in done <==> name in after) && View() == Partly(v, before, after, done)
      modifies this, repr
      ensures Valid() && fresh(repr - old(repr)) && View() == Partly(v, before, after, done + {name})
    {
      if name in after {
        assert done + {name} == done;
        return;
      }
      OneRemoved(v, before, after, done, name);
      ghost var p := View();
      var l := GetLogger(name);
      Undefine(l);
      LookedUpThenSet(p, name, Lookup(p, name).(level := 0, appenders := []));
    }

    /** The names in `todo` are still to be visited in a loop over `all`, those in `start` were visited before. */
    ghost predicate Midway(v: Loggers, before: LogDefines, after: LogDefines,
                           start: set<string>, all: set<string>, todo: set<string>)
      reads this, repr
    {
      && Valid() && todo <= all
      && View() == Partly(v, before, after, start + (all - todo))
    }

    /** One turn of the first loop of the listener. */
    method DefineNext(before: LogDefines, after: LogDefines, ghost v: Loggers, todo: set<string>) returns (left: set<string>)
      requires todo != {} && Midway(v, before, after, {}, after.Keys, todo)
      modifies this, repr
      ensures fresh(repr - old(repr)) && Midway(v, before, after, {}, after.Keys, left) && |left| < |todo|
    {
      var name :| name in todo;
      left := todo - {name};
      Visit({}, after.Keys, todo, name);
      DefineIfChanged(name, before, after, v, {} + (after.Keys - todo));
    }

    /** One turn of the second loop. */
    method UndefineNext(before: LogDefines, after: LogDefines, ghost v: Loggers, todo: set<string>) returns (left: set<string>)
      requires todo != {} && Midway(v, before, after, after.Keys, before.Keys, todo)
      modifies this, repr
      ensures fresh(repr - old(repr)) && Midway(v, before, after, after.Keys, before.Keys, left) && |left| < |todo|
    {
      var name :| name in todo;
      left := todo - {name};
      Visit(after.Keys, before.Keys, todo, name);
      UndefineIfRemoved(name, before, after, v, after.Keys + (before.Keys - todo));
    }

    /** The first loop of the listener: definitions that are new or changed. */
    method DefineChanged(before: LogDefines, after: LogDefines, ghost v: Loggers)
      requires Midway(v, before, after, {}, after.Keys, after.Keys)
      modifies this, repr
      ensures fresh(repr - old(repr)) && Midway(v, before, after, {}, after.Keys, {})
    {
      var todo := after.Keys;
      while todo != {}
        invariant fresh(repr - old(repr)) && Midway(v, before, after, {}, after.Keys, todo)
        decreases |todo|
      {
        todo := DefineNext(before, after, v, todo);
      }
    }

    /** The second loop: definitions that have gone. */
    method UndefineRemoved(before: LogDefines, after: LogDefines, ghost v: Loggers)
      requires Midway(v, before, after, after.Keys, before.Keys, before.Keys)
      modifies this, repr
      ensures fresh(repr - old(repr)) && Midway(v, before, after, after.Keys, before.Keys, {})
    {
      var todo := before.Keys;
      while todo != {}
        invariant fresh(repr - old(repr)) && Midway(v, before, after, after.Keys, before.Keys, todo)
        decreases |todo|
      {
        todo := UndefineNext(before, after, v, todo);
      }
    }

    /** The listener of `LogIniter`. */
    method OnChange(before: LogDefines, after: LogDefines)
      requires Valid()
      modifies this, repr
      ensures Valid() && fresh(repr - old(repr))
      ensures View() == Listener(old(View()), before, after)
    {
      ghost var v := View();
      NothingYet(v, before, after);
      DefineChanged(before, after, v);
      UndefineRemoved(before, after, v);
    }
  }

  /** The configuration variable of the log definitions, with the listener attached. */
  class ConfigVar {
    const manager: LoggerManager
    var val: LogDefines

    constructor (manager: LoggerManager)
      ensures this.manager == manager && val == map[]
    {
      this.manager, val := manager, map[];
    }

    method SetValue(v: LogDefines)
      requires manager.Valid() && this !in manager.repr
      modifies this, manager, manager.repr
      ensures manager.Valid() && fresh(manager.repr - old(manager.repr))
      ensures System(manager.View(), val) == LogConfig.SetValue(old(System(manager.View(), val)), v)
    {
      if v != val {
        Notify(v);
      }
    }

    /** A new value reaches the listener and is stored. */
    method Notify(v: LogDefines)
      requires manager.Valid() && this !in manager.repr
      modifies this, manager, manager.repr
      ensures manager.Valid() && fresh(manager.repr - old(manager.repr))
      ensures manager.View() == Listener(old(manager.View()), old(val), v) && val == v
    {
      manager.OnChange(val, v);
      assert this !in manager.repr;
      ghost var ls := manager.View();
      val := v;
      assert manager.Valid() && manager.View() == ls;
    }
  }
}
