/** The JavaScript engine of javascript/javascript_engine.go: a lifecycle flag,
    the list of compiled programs, the runtime's global object and a
    last-error slot. Compiling, running and calling into the interpreter are
    supplied as outcome functions (`compile`, `run`, `exec`, `call`); a
    cancellation is folded into those outcomes. Every failure records its
    error in the slot, and most successes clear it. */
module JavaScript {
  import opened Wrappers
  import opened ScriptEngine

  /** A compiled program (`*goja.Program`), known by identity. */
  datatype Program = Program(id: nat)

  /** The runtime's global object: each global name and the value it holds. */
  type Globals = map<string, Value>

  /** What one run or call into the interpreter gives back: its result and
      the globals it leaves behind. A script may define or overwrite globals
      (a top-level `function add(a, b) {...}` defines `add`), and what it
      defined before failing stays defined. */
  datatype Run = Run(result: Result<Value, Error>, globals: Globals)

  /** The outcome of running a list in order: every result, or the first
      error, and the globals left behind. */
  datatype Runs = Runs(results: Result<seq<Value>, Error>, globals: Globals)

  /** The results `vs` followed by those of `r`, or `r`'s error. */
  function Prefix(vs: seq<Value>, r: Result<seq<Value>, Error>): Result<seq<Value>, Error>
  {
    match r
    case Failure(e) => Failure(e)
    case Success(ws) => Success(vs + ws)
  }

  /** Runs `f` on each element in order, each in the globals the previous
      run left, collecting the results; stops at the first error (the
      results gathered so far are dropped, the globals are kept). */
  function RunAll<T>(g: Globals, xs: seq<T>, f: (Globals, T) -> Run): Runs
    decreases |xs|
  {
    if xs == [] then Runs(Success([]), g)
    else
      var first := f(g, xs[0]);
      match first.result
      case Failure(e) => Runs(Failure(e), first.globals)
      case Success(v) =>
        var rest := RunAll(first.globals, xs[1..], f);
        Runs(Prefix([v], rest.results), rest.globals)
  }

  /** The globals in place when element `k` starts: `g` as changed by the
      runs of the elements before it. */
  function GlobalsBefore<T>(g: Globals, xs: seq<T>, f: (Globals, T) -> Run, k: nat): Globals
    requires k <= |xs|
    decreases k
  {
    if k == 0 then g else GlobalsBefore(f(g, xs[0]).globals, xs[1..], f, k - 1)
  }

  /** The run of element `k` in the globals the earlier runs left. */
  function RunAt<T>(g: Globals, xs: seq<T>, f: (Globals, T) -> Run, k: nat): Run
    requires k < |xs|
  {
    f(GlobalsBefore(g, xs, f, k), xs[k])
  }

  /** Success means every element ran, one result per element in the same
      order, and the globals are those the last run left; failure means some
      element failed, all before it succeeded, and the globals are those the
      failing run left. */
  lemma {:induction false} RunAllMeaning<T>(g: Globals, xs: seq<T>, f: (Globals, T) -> Run)
    ensures RunAll(g, xs, f).results.Success? <==>
              forall i :: 0 <= i < |xs| ==> RunAt(g, xs, f, i).result.Success?
    ensures RunAll(g, xs, f).results.Success? ==>
              && |RunAll(g, xs, f).results.value| == |xs|
              && (forall i :: 0 <= i < |xs| ==> RunAll(g, xs, f).results.value[i] == RunAt(g, xs, f, i).result.value)
              && RunAll(g, xs, f).globals == GlobalsBefore(g, xs, f, |xs|)
    ensures RunAll(g, xs, f).results.Failure? ==>
              exists k :: 0 <= k < |xs| && RunAt(g, xs, f, k).result == Failure(RunAll(g, xs, f).results.error) &&
                          RunAll(g, xs, f).globals == RunAt(g, xs, f, k).globals &&
                          forall j :: 0 <= j < k ==> RunAt(g, xs, f, j).result.Success?
    decreases |xs|
  {
    if xs != [] {
      var g1 := f(g, xs[0]).globals;
      var rest := xs[1..];
      RunAllMeaning(g1, rest, f);
      forall i | 0 <= i < |rest| ensures RunAt(g, xs, f, i + 1) == RunAt(g1, rest, f, i) {
        assert rest[i] == xs[i + 1];
      }
      assert RunAt(g, xs, f, 0) == f(g, xs[0]);
      if f(g, xs[0]).result.Success? && RunAll(g1, rest, f).results.Success? {
        forall i | 0 <= i < |xs| ensures
            RunAt(g, xs, f, i).result.Success? && RunAll(g, xs, f).results.value[i] == RunAt(g, xs, f, i).result.value
        {
          if i > 0 { assert RunAt(g, xs, f, i) == RunAt(g1, rest, f, i - 1); }
        }
      }
      if f(g, xs[0]).result.Success? && RunAll(g1, rest, f).results.Failure? {
        var k :| 0 <= k < |rest| && RunAt(g1, rest, f, k).result == Failure(RunAll(g1, rest, f).results.error) &&
                 RunAll(g1, rest, f).globals == RunAt(g1, rest, f, k).globals &&
                 forall j :: 0 <= j < k ==> RunAt(g1, rest, f, j).result.Success?;
        assert RunAt(g, xs, f, k + 1) == RunAt(g1, rest, f, k);
        forall j | 0 <= j < k + 1 ensures RunAt(g, xs, f, j).result.Success? {
          if j > 0 { assert RunAt(g, xs, f, j) == RunAt(g1, rest, f, j - 1); }
        }
      }
    }
  }

  /** Running a list with one element appended is running the list, then
      that element in the globals the list left. */
  lemma {:induction false} RunAllSnoc<T>(g: Globals, xs: seq<T>, x: T, f: (Globals, T) -> Run)
    ensures RunAll(g, xs + [x], f) ==
              var before := RunAll(g, xs, f);
              match before.results
              case Failure(_) => before
              case Success(vs) =>
                var last := f(before.globals, x);
                match last.result
                case Failure(e) => Runs(Failure(e), last.globals)
                case Success(v) => Runs(Success(vs + [v]), last.globals)
    decreases |xs|
  {
    if xs == [] {
      assert xs + [x] == [x] && [x][1..] == [];
      if f(g, x).result.Success? {
        assert [f(g, x).result.value] + [] == [] + [f(g, x).result.value];
      }
    } else {
      var g1 := f(g, xs[0]).globals;
      assert (xs + [x])[0] == xs[0];
      assert (xs + [x])[1..] == xs[1..] + [x];
      RunAllSnoc(g1, xs[1..], x, f);
      var rest := RunAll(g1, xs[1..], f);
      if f(g, xs[0]).result.Success? && rest.results.Success? && f(rest.globals, x).result.Success? {
        var v, vs, w := f(g, xs[0]).result.value, rest.results.value, f(rest.globals, x).result.value;
        assert [v] + (vs + [w]) == ([v] + vs) + [w];
      }
    }
  }

  /** ExecuteFile's last-element selection: the result of the last program,
      or nil for an empty result list. */
  function LastResult(vs: seq<Value>): Value
  {
    if vs == [] then Nil else vs[|vs| - 1]
  }

  /** Running the loaded programs after appending one yields, on success,
      that program's own result as the last one, computed in the globals the
      earlier programs left; the globals are then the ones it left. */
  lemma LastResultIsNewest(g: Globals, ps: seq<Program>, p: Program, run: (Globals, Program) -> Run)
    ensures RunAll(g, ps + [p], run).results.Success? ==>
              var before := RunAll(g, ps, run);
              && before.results.Success?
              && run(before.globals, p).result.Success?
              && LastResult(RunAll(g, ps + [p], run).results.value) == run(before.globals, p).result.value
              && RunAll(g, ps + [p], run).globals == run(before.globals, p).globals
  {
    RunAllSnoc(g, ps, p, run);
  }

  /** Compiles each item in order, stopping at the first error; the programs
      compiled before the error are kept. */
  function LoadMany<T>(items: seq<T>, load: T -> Result<Program, Error>): (seq<Program>, Option<Error>)
  {
    if items == [] then ([], None)
    else match load(items[0])
      case Failure(e) => ([], Some(e))
      case Success(p) => var rest := LoadMany(items[1..], load); ([p] + rest.0, rest.1)
  }

  /** LoadMany keeps exactly the programs of the items before the first
      failure, in order; the error is that item's, or none if all compiled. */
  lemma {:induction false} LoadManyMeaning<T>(items: seq<T>, load: T -> Result<Program, Error>)
    ensures var (ps, err) := LoadMany(items, load);
            && |ps| <= |items|
            && (forall i :: 0 <= i < |ps| ==> load(items[i]) == Success(ps[i]))
            && (err.None? <==> |ps| == |items|)
            && (err.Some? ==> load(items[|ps|]) == Failure(err.value))
  {
    if items != [] {
      var rest := items[1..];
      LoadManyMeaning(rest, load);
      assert forall i :: 0 <= i < |rest| ==> rest[i] == items[i + 1];
    }
  }

  /** Reading a file and compiling its contents, the loading step of LoadFile. */
  function ReadAndCompile(read: string -> Result<string, Error>, compile: string -> Result<Program, Error>,
                          path: string): Result<Program, Error>
  {
    match read(path)
    case Failure(e) => Failure(e)
    case Success(source) => compile(source)
  }

  /** The outcome of ExecuteFiles: every file's last result, or the first
      error, and the programs and globals left behind. */
  datatype FilesRun = FilesRun(results: Result<seq<Value>, Error>, programs: seq<Program>, globals: Globals)

  /** ExecuteFiles: for each path, load the file, run ALL loaded programs in
      the current globals and keep the last result; stop at the first error. */
  function ExecuteFilesFrom(programs: seq<Program>, g: Globals, paths: seq<string>,
                            load: string -> Result<Program, Error>, run: (Globals, Program) -> Run): FilesRun
    decreases |paths|
  {
    if paths == [] then FilesRun(Success([]), programs, g)
    else match load(paths[0])
      case Failure(e) => FilesRun(Failure(e), programs, g)
      case Success(p) =>
        var runs := RunAll(g, programs + [p], run);
        match runs.results
        case Failure(e) => FilesRun(Failure(e), programs + [p], runs.globals)
        case Success(vs) =>
          var rest := ExecuteFilesFrom(programs + [p], runs.globals, paths[1..], load, run);
          FilesRun(Prefix([LastResult(vs)], rest.results), rest.programs, rest.globals)
  }

  /** On success ExecuteFiles returns one result per path, and each file's
      program stays loaded, in path order. */
  lemma {:induction false} ExecuteFilesOnePerPath(programs: seq<Program>, g: Globals, paths: seq<string>,
                                                  load: string -> Result<Program, Error>,
                                                  run: (Globals, Program) -> Run)
    ensures var out := ExecuteFilesFrom(programs, g, paths, load, run);
            out.results.Success? ==>
              && |out.results.value| == |paths|
              && |out.programs| == |programs| + |paths|
              && out.programs[..|programs|] == programs
              && forall i :: 0 <= i < |paths| ==> load(paths[i]) == Success(out.programs[|programs| + i])
    decreases |paths|
  {
    if paths != [] && load(paths[0]).Success? {
      var p := load(paths[0]).value;
      var runs := RunAll(g, programs + [p], run);
      if runs.results.Success? {
        var rest := paths[1..];
        ExecuteFilesOnePerPath(programs + [p], runs.globals, rest, load, run);
        var out := ExecuteFilesFrom(programs, g, paths, load, run);
        var final := out.programs;
        if out.results.Success? {
          assert final[..|programs| + 1] == programs + [p] by {
            assert final[..|programs| + 1] == final[..|programs + [p]|];
          }
          assert final[..|programs|] == (final[..|programs| + 1])[..|programs|];
          forall i | 0 <= i < |paths| ensures load(paths[i]) == Success(final[|programs| + i]) {
            if i > 0 { assert paths[i] == rest[i - 1]; }
            else { assert final[|programs|] == (final[..|programs| + 1])[|programs|]; }
          }
        }
      }
    }
  }

  class JsEngine {
    var initialized: bool
    var programs: seq<Program>
    var lastError: Option<Error>
    /** The user-visible globals of the runtime: present only while initialized. */
    var globals: map<string, Value>

    /** An uninitialized engine has no runtime and no loaded program. */
    ghost predicate Valid()
      reads this
    {
      !initialized ==> programs == [] && globals == map[]
    }

    constructor ()
      ensures Valid() && !initialized && programs == [] && lastError == None && globals == map[]
    {
      initialized := false;
      programs := [];
      lastError := None;
      globals := map[];
    }

    function GetType(): (t: EngineType)
      ensures t == JavaScriptType
    {
      JavaScriptType
    }

    method IsInitialized() returns (b: bool)
      ensures b == initialized
    {
      b := initialized;
    }

    method GetLastError() returns (err: Option<Error>)
      ensures err == lastError
    {
      err := lastError;
    }

    method SetLastError(err: Error)
      modifies this
      ensures lastError == Some(err)
      ensures initialized == old(initialized) && programs == old(programs) && globals == old(globals)
    {
      lastError := Some(err);
    }

    method ClearError()
      modifies this
      ensures lastError == None
      ensures initialized == old(initialized) && programs == old(programs) && globals == old(globals)
    {
      lastError := None;
    }

    /** Creates a fresh runtime, whose globals are the interpreter's built-ins
        (`builtins`: Object, Math, JSON, parseInt, ...). Fails, recording
        AlreadyInitialized and changing nothing else, when already initialized. */
    method Init(builtins: map<string, Value>) returns (err: Option<Error>)
      requires Valid()
      modifies this
      ensures initialized && programs == old(programs)
      ensures old(initialized) ==> err == Some(JsAlreadyInitialized) && lastError == err && globals == old(globals)
      ensures !old(initialized) ==> err == None && lastError == None && globals == builtins
      ensures Valid()
    {
      if initialized {
        SetLastError(JsAlreadyInitialized);
        return Some(JsAlreadyInitialized);
      }
      globals := builtins;
      initialized := true;
      lastError := None;
      err := None;
    }

    /** Drops the runtime and the programs and clears the error. Fails,
        recording NotInitialized, when not initialized. */
    method Close() returns (err: Option<Error>)
      requires Valid()
      modifies this
      ensures Valid() && !initialized && programs == [] && globals == map[]
      ensures old(initialized) ==> err == None && lastError == None
      ensures !old(initialized) ==> err == Some(JsNotInitialized) && lastError == err
    {
      if !initialized {
        SetLastError(JsNotInitialized);
        return Some(JsNotInitialized);
      }
      initialized := false;
      globals := map[];
      programs := [];
      lastError := None;
      err := None;
    }

    /** Empties the program list, whatever the lifecycle state. */
    method ClearPrograms()
      requires Valid()
      modifies this
      ensures Valid() && programs == []
      ensures initialized == old(initialized) && lastError == old(lastError) && globals == old(globals)
    {
      programs := [];
    }

    /** Compiles `source` and appends the program; records the error of an
        uninitialized engine or a failed compile, leaving the list alone. */
    method LoadString(source: string, compile: string -> Result<Program, Error>) returns (err: Option<Error>)
      requires Valid()
      modifies this
      ensures Valid() && initialized == old(initialized) && globals == old(globals)
      ensures !old(initialized) ==> err == Some(JsNotInitialized) && lastError == err && programs == old(programs)
      ensures old(initialized) && compile(source).Failure? ==>
                err == Some(compile(source).error) && lastError == err && programs == old(programs)
      ensures old(initialized) && compile(source).Success? ==>
                err == None && lastError == None && programs == old(programs) + [compile(source).value]
    {
      var ready := IsInitialized();
      if !ready {
        SetLastError(JsNotInitialized);
        return Some(JsNotInitialized);
      }
      var program := compile(source);
      if program.Failure? {
        SetLastError(program.error);
        return Some(program.error);
      }
      programs := programs + [program.value];
      ClearError();
      err := None;
    }

    /** Reads the file, compiles it and appends the program; records an
        uninitialized engine, a read error or a compile error. */
    method LoadFile(path: string, read: string -> Result<string, Error>, compile: string -> Result<Program, Error>)
      returns (err: Option<Error>)
      requires Valid()
      modifies this
      ensures Valid() && initialized == old(initialized) && globals == old(globals)
      ensures !old(initialized) ==> err == Some(JsNotInitialized) && lastError == err && programs == old(programs)
      ensures old(initialized) ==>
                match ReadAndCompile(read, compile, path)
                case Failure(e) => err == Some(e) && lastError == err && programs == old(programs)
                case Success(p) => err == None && lastError == None && programs == old(programs) + [p]
    {
      var ready := IsInitialized();
      if !ready {
        SetLastError(JsNotInitialized);
        return Some(JsNotInitialized);
      }
      var source := read(path);
      if source.Failure? {
        SetLastError(source.error);
        return Some(source.error);
      }
      var program := compile(source.value);
      if program.Failure? {
        SetLastError(program.error);
        return Some(program.error);
      }
      programs := programs + [program.value];
      ClearError();
      err := None;
    }

    /** Reads the whole reader (`contents` is what reading returns) and loads
        it as a string. */
    method LoadReader(contents: Result<string, Error>, compile: string -> Result<Program, Error>)
      returns (err: Option<Error>)
      requires Valid()
      modifies this
      ensures Valid() && initialized == old(initialized) && globals == old(globals)
      ensures !old(initialized) ==> err == Some(JsNotInitialized) && lastError == err && programs == old(programs)
      ensures old(initialized) && contents.Failure? ==>
                err == Some(contents.error) && lastError == err && programs == old(programs)
      ensures old(initialized) && contents.Success? ==>
                match compile(contents.value)
                case Failure(e) => err == Some(e) && lastError == err && programs == old(programs)
                case Success(p) => err == None && lastError == None && programs == old(programs) + [p]
    {
      var ready := IsInitialized();
      if !ready {
        SetLastError(JsNotInitialized);
        return Some(JsNotInitialized);
      }
      if contents.Failure? {
        SetLastError(contents.error);
        return Some(contents.error);
      }
      err := LoadString(contents.value, compile);
    }

    /** Loads each source in order and stops at the first failure; programs
        loaded before it stay loaded. */
    method LoadStrings(sources: seq<string>, compile: string -> Result<Program, Error>) returns (err: Option<Error>)
      requires Valid()
      modifies this
      ensures Valid() && initialized == old(initialized) && globals == old(globals)
      ensures sources == [] ==> err == None && lastError == old(lastError) && programs == old(programs)
      ensures !old(initialized) && sources != [] ==>
                err == Some(JsNotInitialized) && lastError == err && programs == old(programs)
      ensures old(initialized) ==>
                programs == old(programs) + LoadMany(sources, compile).0 &&
                err == LoadMany(sources, compile).1 &&
                (sources != [] ==> lastError == err)
    {
      err := None;
      ghost var done: seq<Program> := [];
      assert sources[0..] == sources;
      assert forall ps: seq<Program> :: [] + ps == ps;
      var i := 0;
      while i < |sources|
        invariant 0 <= i <= |sources| && Valid() && err == None
        invariant initialized == old(initialized) && globals == old(globals)
        invariant programs == old(programs) + done
        invariant i == 0 ==> lastError == old(lastError) && done == []
        invariant !initialized ==> i == 0
        invariant initialized ==>
                    var rest := LoadMany(sources[i..], compile);
                    LoadMany(sources, compile) == (done + rest.0, rest.1)
        invariant initialized && i > 0 ==> lastError == None
      {
        assert sources[i..][0] == sources[i];
        assert sources[i..][1..] == sources[i + 1..];
        err := LoadString(sources[i], compile);
        if err.Some? {
          return;
        }
        assert forall ps: seq<Program> :: done + ([compile(sources[i]).value] + ps) == (done + [compile(sources[i]).value]) + ps;
        done := done + [compile(sources[i]).value];
        i := i + 1;
      }
    }

    /** Loads each file in order and stops at the first failure. */
    method LoadFiles(paths: seq<string>, read: string -> Result<string, Error>, compile: string -> Result<Program, Error>)
      returns (err: Option<Error>)
      requires Valid()
      modifies this
      ensures Valid() && initialized == old(initialized) && globals == old(globals)
      ensures paths == [] ==> err == None && lastError == old(lastError) && programs == old(programs)
      ensures !old(initialized) && paths != [] ==>
                err == Some(JsNotInitialized) && lastError == err && programs == old(programs)
      ensures old(initialized) ==>
                var load := (path: string) => ReadAndCompile(read, compile, path);
                programs == old(programs) + LoadMany(paths, load).0 &&
                err == LoadMany(paths, load).1 &&
                (paths != [] ==> lastError == err)
    {
      var load := (path: string) => ReadAndCompile(read, compile, path);
      err := None;
      ghost var done: seq<Program> := [];
      assert paths[0..] == paths;
      assert forall ps: seq<Program> :: [] + ps == ps;
      var i := 0;
      while i < |paths|
        invariant 0 <= i <= |paths| && Valid() && err == None
        invariant initialized == old(initialized) && globals == old(globals)
        invariant programs == old(programs) + done
        invariant i == 0 ==> lastError == old(lastError) && done == []
        invariant !initialized ==> i == 0
        invariant initialized ==>
                    var rest := LoadMany(paths[i..], load);
                    LoadMany(paths, load) == (done + rest.0, rest.1)
        invariant initialized && i > 0 ==> lastError == None
      {
        assert paths[i..][0] == paths[i];
        assert paths[i..][1..] == paths[i + 1..];
        err := LoadFile(paths[i], read, compile);
        if err.Some? {
          return;
        }
        assert forall ps: seq<Program> :: done + ([load(paths[i]).value] + ps) == (done + [load(paths[i]).value]) + ps;
        done := done + [load(paths[i]).value];
        i := i + 1;
      }
    }

    /** Runs one compiled program in the runtime's globals; the globals
        become those the run left, and the slot records the error or is
        cleared. */
    method RunProgram(program: Program, run: (Globals, Program) -> Run) returns (r: Result<Value, Error>)
      requires Valid()
      modifies this
      ensures Valid() && initialized == old(initialized) && programs == old(programs)
      ensures !old(initialized) ==>
                r == Failure(JsNotInitialized) && lastError == Some(JsNotInitialized) && globals == old(globals)
      ensures old(initialized) ==>
                var o := run(old(globals), program);
                r == o.result && globals == o.globals && lastError == (if r.Failure? then Some(r.error) else None)
    {
      var ready := IsInitialized();
      if !ready {
        SetLastError(JsNotInitialized);
        return Failure(JsNotInitialized);
      }
      var o := run(globals, program);
      globals := o.globals;
      r := o.result;
      if r.Failure? {
        SetLastError(r.error);
      } else {
        ClearError();
      }
    }

    /** The unexported executeProgram: the same guard, then RunProgram. */
    method ExecuteProgram(program: Program, run: (Globals, Program) -> Run) returns (r: Result<Value, Error>)
      requires Valid()
      modifies this
      ensures Valid() && initialized == old(initialized) && programs == old(programs)
      ensures !old(initialized) ==>
                r == Failure(JsNotInitialized) && lastError == Some(JsNotInitialized) && globals == old(globals)
      ensures old(initialized) ==>
                var o := run(old(globals), program);
                r == o.result && globals == o.globals && lastError == (if r.Failure? then Some(r.error) else None)
    {
      var ready := IsInitialized();
      if !ready {
        SetLastError(JsNotInitialized);
        return Failure(JsNotInitialized);
      }
      r := RunProgram(program, run);
    }

    /** Runs every loaded program in load order, each in the globals the
        previous one left, one result per program, and aborts at the first
        run error; fails with NoProgramLoaded when the list is empty. The
        error slot ends holding the failure, or empty. */
    method ExecuteLoaded(run: (Globals, Program) -> Run) returns (r: Result<seq<Value>, Error>)
      requires Valid()
      modifies this
      ensures Valid() && initialized == old(initialized) && programs == old(programs)
      ensures !old(initialized) ==>
                r == Failure(JsNotInitialized) && lastError == Some(JsNotInitialized) && globals == old(globals)
      ensures old(initialized) && old(programs) == [] ==>
                r == Failure(JsNoProgramLoaded) && lastError == Some(JsNoProgramLoaded) && globals == old(globals)
      ensures old(initialized) && old(programs) != [] ==>
                var runs := RunAll(old(globals), programs, run);
                r == runs.results && globals == runs.globals &&
                lastError == (if r.Failure? then Some(r.error) else None)
    {
      var ready := IsInitialized();
      if !ready {
        SetLastError(JsNotInitialized);
        return Failure(JsNotInitialized);
      }
      var progs := programs;
      if |progs| == 0 {
        SetLastError(JsNoProgramLoaded);
        return Failure(JsNoProgramLoaded);
      }
      var results: seq<Value> := [];
      assert progs[0..] == progs;
      assert forall vs: seq<Value> :: [] + vs == vs;
      var i := 0;
      while i < |progs|
        invariant 0 <= i <= |progs| && Valid() && initialized && programs == progs
        invariant RunAll(old(globals), progs, run) ==
                    var rest := RunAll(globals, progs[i..], run);
                    Runs(Prefix(results, rest.results), rest.globals)
      {
        assert progs[i..][0] == progs[i];
        assert progs[i..][1..] == progs[i + 1..];
        var res := RunProgram(progs[i], run);
        if res.Failure? {
          return Failure(res.error);
        }
        assert forall vs :: results + ([res.value] + vs) == (results + [res.value]) + vs;
        results := results + [res.value];
        i := i + 1;
      }
      assert progs[i..] == [];
      assert results + [] == results;
      ClearError();
      r := Success(results);
    }

    /** Compiles and runs `source` at once in the runtime's globals; the
        globals become those it left, and the slot records the error or is
        cleared. A nil completion value is a nil result. */
    method ExecuteString(source: string, exec: (Globals, string) -> Run) returns (r: Result<Value, Error>)
      requires Valid()
      modifies this
      ensures Valid() && initialized == old(initialized) && programs == old(programs)
      ensures !old(initialized) ==>
                r == Failure(JsNotInitialized) && lastError == Some(JsNotInitialized) && globals == old(globals)
      ensures old(initialized) ==>
                var o := exec(old(globals), source);
                r == o.result && globals == o.globals && lastError == (if r.Failure? then Some(r.error) else None)
    {
      var ready := IsInitialized();
      if !ready {
        SetLastError(JsNotInitialized);
        return Failure(JsNotInitialized);
      }
      var o := exec(globals, source);
      globals := o.globals;
      r := o.result;
      if r.Failure? {
        SetLastError(r.error);
      } else {
        ClearError();
      }
    }

    /** ExecuteString on each source in order, each in the globals the
        previous one left: one result per source, or the first error alone. */
    method ExecuteStrings(sources: seq<string>, exec: (Globals, string) -> Run) returns (r: Result<seq<Value>, Error>)
      requires Valid()
      modifies this
      ensures Valid() && initialized == old(initialized) && programs == old(programs)
      ensures sources == [] ==> r == Success([]) && lastError == old(lastError) && globals == old(globals)
      ensures !old(initialized) && sources != [] ==>
                r == Failure(JsNotInitialized) && lastError == Some(JsNotInitialized) && globals == old(globals)
      ensures old(initialized) && sources != [] ==>
                var runs := RunAll(old(globals), sources, exec);
                r == runs.results && globals == runs.globals &&
                lastError == (if r.Failure? then Some(r.error) else None)
    {
      var results: seq<Value> := [];
      assert sources[0..] == sources;
      assert forall vs: seq<Value> :: [] + vs == vs;
      var i := 0;
      while i < |sources|
        invariant 0 <= i <= |sources| && Valid()
        invariant initialized == old(initialized) && programs == old(programs)
        invariant i == 0 ==> lastError == old(lastError) && results == [] && globals == old(globals)
        invariant !initialized ==> i == 0
        invariant initialized && i > 0 ==> lastError == None
        invariant initialized ==>
                    RunAll(old(globals), sources, exec) ==
                      var rest := RunAll(globals, sources[i..], exec);
                      Runs(Prefix(results, rest.results), rest.globals)
      {
        assert sources[i..][0] == sources[i];
        assert sources[i..][1..] == sources[i + 1..];
        var res := ExecuteString(sources[i], exec);
        if res.Failure? {
          return Failure(res.error);
        }
        assert forall vs :: results + ([res.value] + vs) == (results + [res.value]) + vs;
        results := results + [res.value];
        i := i + 1;
      }
      assert sources[i..] == [];
      assert results + [] == results;
      r := Success(results);
    }

    /** Loads the file, runs every loaded program and returns the last
        result, which is the file's own; the file's program stays loaded and
        the globals are those the runs left. */
    method ExecuteFile(path: string, read: string -> Result<string, Error>, compile: string -> Result<Program, Error>,
                       run: (Globals, Program) -> Run) returns (r: Result<Value, Error>)
      requires Valid()
      modifies this
      ensures Valid() && initialized == old(initialized)
      ensures !old(initialized) ==>
                r == Failure(JsNotInitialized) && lastError == Some(JsNotInitialized) && globals == old(globals)
      ensures old(initialized) ==>
                match ReadAndCompile(read, compile, path)
                case Failure(e) =>
                  r == Failure(e) && lastError == Some(e) && programs == old(programs) && globals == old(globals)
                case Success(p) =>
                  && programs == old(programs) + [p]
                  && globals == RunAll(old(globals), programs, run).globals
                  && (match RunAll(old(globals), programs, run).results
                      case Failure(e) => r == Failure(e)
                      case Success(vs) => r == Success(LastResult(vs)))
                  && lastError == (if r.Failure? then Some(r.error) else None)
    {
      var err := LoadFile(path, read, compile);
      if err.Some? {
        return Failure(err.value);
      }
      var res := ExecuteLoaded(run);
      if res.Failure? {
        return Failure(res.error);
      }
      r := Success(LastResult(res.value));
    }

    /** ExecuteFile on each path in order, one result per path, stopping at
        the first error. Each file's program stays loaded, so later files
        re-run the earlier programs too, in the globals the runs before left. */
    method ExecuteFiles(paths: seq<string>, read: string -> Result<string, Error>, compile: string -> Result<Program, Error>,
                        run: (Globals, Program) -> Run) returns (r: Result<seq<Value>, Error>)
      requires Valid()
      modifies this
      ensures Valid() && initialized == old(initialized)
      ensures paths == [] ==>
                r == Success([]) && lastError == old(lastError) && programs == old(programs) && globals == old(globals)
      ensures !old(initialized) && paths != [] ==>
                && r == Failure(JsNotInitialized) && lastError == Some(JsNotInitialized)
                && programs == old(programs) && globals == old(globals)
      ensures old(initialized) ==>
                var load := (path: string) => ReadAndCompile(read, compile, path);
                FilesRun(r, programs, globals) == ExecuteFilesFrom(old(programs), old(globals), paths, load, run) &&
                (paths != [] ==> lastError == (if r.Failure? then Some(r.error) else None))
    {
      ghost var load := (path: string) => ReadAndCompile(read, compile, path);
      var results: seq<Value> := [];
      assert paths[0..] == paths;
      assert forall vs: seq<Value> :: [] + vs == vs;
      var i := 0;
      while i < |paths|
        invariant 0 <= i <= |paths| && Valid()
        invariant initialized == old(initialized)
        invariant i == 0 ==>
                    lastError == old(lastError) && programs == old(programs) && globals == old(globals) && results == []
        invariant !initialized ==> i == 0
        invariant initialized && i > 0 ==> lastError == None
        invariant initialized ==>
                    ExecuteFilesFrom(old(programs), old(globals), paths, load, run) ==
                      var rest := ExecuteFilesFrom(programs, globals, paths[i..], load, run);
                      FilesRun(Prefix(results, rest.results), rest.programs, rest.globals)
      {
        assert paths[i..][0] == paths[i];
        assert paths[i..][1..] == paths[i + 1..];
        var res := ExecuteFile(paths[i], read, compile, run);
        if res.Failure? {
          return Failure(res.error);
        }
        assert forall ws :: results + ([res.value] + ws) == (results + [res.value]) + ws;
        results := results + [res.value];
        i := i + 1;
      }
      assert paths[i..] == [];
      assert results + [] == results;
      r := Success(results);
    }

    /** Sets a global of the runtime and clears the error slot. */
    method RegisterGlobal(name: string, value: Value) returns (err: Option<Error>)
      requires Valid()
      modifies this
      ensures Valid() && initialized == old(initialized) && programs == old(programs)
      ensures !old(initialized) ==> err == Some(JsNotInitialized) && lastError == err && globals == old(globals)
      ensures old(initialized) ==> err == None && lastError == None && globals == old(globals)[name := value]
    {
      var ready := IsInitialized();
      if !ready {
        SetLastError(JsNotInitialized);
        return Some(JsNotInitialized);
      }
      globals := globals[name := value];
      ClearError();
      err := None;
    }

    /** Reads a global back; a name the runtime does not hold is an error. */
    method GetGlobal(name: string) returns (r: Result<Value, Error>)
      requires Valid()
      modifies this
      ensures Valid() && initialized == old(initialized) && programs == old(programs) && globals == old(globals)
      ensures !old(initialized) ==> r == Failure(JsNotInitialized) && lastError == Some(JsNotInitialized)
      ensures old(initialized) && name !in globals ==> r == Failure(JsGlobalNotFound(name)) && lastError == Some(r.error)
      ensures old(initialized) && name in globals ==> r == Success(globals[name]) && lastError == None
    {
      var ready := IsInitialized();
      if !ready {
        SetLastError(JsNotInitialized);
        return Failure(JsNotInitialized);
      }
      if name !in globals {
        SetLastError(JsGlobalNotFound(name));
        return Failure(JsGlobalNotFound(name));
      }
      r := Success(globals[name]);
      ClearError();
    }

    /** Exposes a native function under `name` (a global of the runtime). */
    method RegisterFunction(name: string, fn: Value) returns (err: Option<Error>)
      requires Valid()
      modifies this
      ensures Valid() && initialized == old(initialized) && programs == old(programs)
      ensures !old(initialized) ==> err == Some(JsNotInitialized) && lastError == err && globals == old(globals)
      ensures old(initialized) ==> err == None && lastError == None && globals == old(globals)[name := fn]
    {
      var ready := IsInitialized();
      if !ready {
        SetLastError(JsNotInitialized);
        return Some(JsNotInitialized);
      }
      globals := globals[name := fn];
      ClearError();
      err := None;
    }

    /** Calls the global function `name`; `call(g, f, args)` is what calling
        `f` in globals `g` returns, with the globals the call leaves. Missing
        names and non-functions are recorded errors that change no global. */
    method CallFunction(name: string, args: seq<Value>, call: (Globals, Value, seq<Value>) -> Run)
      returns (r: Result<Value, Error>)
      requires Valid()
      modifies this
      ensures Valid() && initialized == old(initialized) && programs == old(programs)
      ensures !old(initialized) ==> r == Failure(JsNotInitialized) && globals == old(globals)
      ensures old(initialized) && name !in old(globals) ==>
                r == Failure(JsFunctionNotFound(name)) && globals == old(globals)
      ensures old(initialized) && name in old(globals) && !Callable(old(globals)[name]) ==>
                r == Failure(JsNotAFunction(name)) && globals == old(globals)
      ensures old(initialized) && name in old(globals) && Callable(old(globals)[name]) ==>
                var o := call(old(globals), old(globals)[name], args);
                r == o.result && globals == o.globals
      ensures lastError == (if r.Failure? then Some(r.error) else None)
    {
      var ready := IsInitialized();
      if !ready {
        SetLastError(JsNotInitialized);
        return Failure(JsNotInitialized);
      }
      if name !in globals {
        r := Failure(JsFunctionNotFound(name));
      } else if !Callable(globals[name]) {
        r := Failure(JsNotAFunction(name));
      } else {
        var o := call(globals, globals[name], args);
        globals := o.globals;
        r := o.result;
      }
      if r.Failure? {
        SetLastError(r.error);
      } else {
        ClearError();
      }
    }

    /** Exposes `moduleValue` under `name`. */
    method RegisterModule(name: string, moduleValue: Value) returns (err: Option<Error>)
      requires Valid()
      modifies this
      ensures Valid() && initialized == old(initialized) && programs == old(programs)
      ensures !old(initialized) ==> err == Some(JsNotInitialized) && lastError == err && globals == old(globals)
      ensures old(initialized) ==> err == None && lastError == None && globals == old(globals)[name := moduleValue]
    {
      var ready := IsInitialized();
      if !ready {
        SetLastError(JsNotInitialized);
        return Some(JsNotInitialized);
      }
      // A map module is copied field by field into a new object, which reads
      // back as the same map; any other value is set as it is. Both store
      // `moduleValue`.
      globals := globals[name := moduleValue];
      ClearError();
      err := None;
    }
  }
  /** Init, GetGlobal of a built-in, RegisterGlobal, GetGlobal, Close,
      GetGlobal on a fresh engine: a built-in reads back at once, the
      registered global reads back while the runtime lives, and after Close
      it is gone with the runtime. */
  method GlobalRoundTripScenario(e: JsEngine, builtins: map<string, Value>, builtin: string, name: string, v: Value)
    returns (gotBuiltin: Result<Value, Error>, got: Result<Value, Error>, closeErr: Option<Error>,
             after: Result<Value, Error>)
    requires e.Valid() && !e.initialized && builtin in builtins
    modifies e
    ensures gotBuiltin == Success(builtins[builtin])
    ensures got == Success(v) && closeErr == None
    ensures after == Failure(JsNotInitialized) && e.lastError == Some(JsNotInitialized)
    ensures e.programs == [] && e.globals == map[]
  {
    var _ := e.Init(builtins);
    gotBuiltin := e.GetGlobal(builtin);
    var _ := e.RegisterGlobal(name, v);
    got := e.GetGlobal(name);
    closeErr := e.Close();
    after := e.GetGlobal(name);
  }

  /** The round trip of the engine's own test: after Init, a script defines
      a function as a global and returns a value; CallFunction then finds
      that function among the globals the script left and calls it. */
  method ScriptDefinedFunctionScenario(e: JsEngine, builtins: Globals, source: string, name: string,
                                       args: seq<Value>, exec: (Globals, string) -> Run,
                                       call: (Globals, Value, seq<Value>) -> Run)
    returns (defined: Result<Value, Error>, called: Result<Value, Error>)
    requires e.Valid() && !e.initialized
    requires exec(builtins, source).result.Success?
    requires name in exec(builtins, source).globals && Callable(exec(builtins, source).globals[name])
    modifies e
    ensures defined == exec(builtins, source).result
    ensures var after := exec(builtins, source).globals;
            called == call(after, after[name], args).result && e.globals == call(after, after[name], args).globals
    ensures e.lastError == (if called.Failure? then Some(called.error) else None)
  {
    var _ := e.Init(builtins);
    defined := e.ExecuteString(source, exec);
    called := e.CallFunction(name, args, call);
  }
}
