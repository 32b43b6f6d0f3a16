/**
 * The deterministic bookkeeping of packit/session_recording.py: the
 * predictable temporary names, the keys under which calls are recorded, the
 * directory counter of the file-storing decorators and the direction of their
 * copies. The persistent storage is reduced to what this code does with it:
 * `store` appends to a log, and `read` hands out the next of a given sequence
 * of answers.
 */
module SessionRecording {
  import opened Base
  import opened Text

  // ---------------------------------------------------------------------------
  // Python values

  /** The arguments and results of recorded calls, as far as the keys use them. */
  datatype PyValue = Str(s: string) | Int(i: int) | NoneValue | Other(repr: string)

  /** `f"{v}"`. */
  function Format(v: PyValue): string {
    match v
    case Str(s) => s
    case Int(i) => IntToString(i)
    case NoneValue => "None"
    case Other(repr) => repr
  }

  /** Keyword arguments, in call order. */
  type Kwargs = seq<(string, PyValue)>

  /** A keyword-argument dict has each name once. */
  predicate DistinctNames(kwargs: Kwargs) {
    forall i, j :: 0 <= i < j < |kwargs| ==> kwargs[i].0 != kwargs[j].0
  }

  /** `kwargs[k]`, or None when `k` is absent (a KeyError). */
  function Lookup(kwargs: Kwargs, k: string): (r: Option<PyValue>)
    ensures r.Some? <==> exists i :: 0 <= i < |kwargs| && kwargs[i].0 == k
    ensures r.Some? ==> exists i :: 0 <= i < |kwargs| && kwargs[i] == (k, r.value)
  {
    if |kwargs| == 0 then None
    else if kwargs[0].0 == k then Some(kwargs[0].1)
    else Lookup(kwargs[1..], k)
  }

  /** In a dict with distinct names, the value stored under a name is found by it. */
  lemma {:induction false} LookupFinds(kwargs: Kwargs, j: nat)
    requires DistinctNames(kwargs) && j < |kwargs|
    ensures Lookup(kwargs, kwargs[j].0) == Some(kwargs[j].1)
  {
    if j > 0 {
      assert DistinctNames(kwargs[1..]) by {
        forall a, b | 0 <= a < b < |kwargs[1..]| ensures kwargs[1..][a].0 != kwargs[1..][b].0 {
          assert kwargs[1..][a] == kwargs[a + 1] && kwargs[1..][b] == kwargs[b + 1];
        }
      }
      assert kwargs[0].0 != kwargs[j].0;
      LookupFinds(kwargs[1..], j - 1);
    }
  }

  /** `args[i]` with Python's indexing from the end for negative `i`; None is an IndexError. */
  function Index(args: seq<PyValue>, i: int): (r: Option<PyValue>)
    ensures r.Some? <==> -|args| <= i < |args|
    ensures 0 <= i < |args| ==> r == Some(args[i])
    ensures -|args| <= i < 0 ==> r == Some(args[|args| + i])
  {
    if 0 <= i < |args| then Some(args[i])
    else if -|args| <= i < 0 then Some(args[|args| + i])
    else None
  }

  // ---------------------------------------------------------------------------
  // tempfile

  /** `os.path.join(root, f"{prefix}_{counter}")`. */
  function TempName(root: string, prefix: string, counter: nat): string {
    PathJoin(root, prefix + "_" + Decimal(counter))
  }

  /** Two strings that end in `"_"` followed by underscore-free text end in the same text. */
  lemma SameTailAfterUnderscore(x1: string, d1: string, x2: string, d2: string)
    requires '_' !in d1 && '_' !in d2
    requires x1 + "_" + d1 == x2 + "_" + d2
    ensures d1 == d2
  {
    var s := x1 + "_" + d1;
    assert s[|s| - |d1| - 1] == '_';
    assert s[|s| - |d2| - 1] == '_';
    assert d1 == s[|s| - |d1|..];
    assert d2 == s[|s| - |d2|..];
  }

  lemma DecimalHasNoUnderscore(n: nat)
    ensures '_' !in Decimal(n)
  {
    DecimalRoundTrip(n);
  }

  /** Names made for different counter values differ, whatever the roots and
      prefixes, because each name ends in `"_"` and its counter. */
  lemma TempNamesDiffer(root1: string, prefix1: string, m: nat, root2: string, prefix2: string, n: nat)
    requires m != n
    ensures TempName(root1, prefix1, m) != TempName(root2, prefix2, n)
  {
    if TempName(root1, prefix1, m) == TempName(root2, prefix2, n) {
      var a := TempName(root1, prefix1, m);
      var b1 := prefix1 + "_" + Decimal(m);
      var b2 := prefix2 + "_" + Decimal(n);
      PathJoinEndsWith(root1, b1);
      PathJoinEndsWith(root2, b2);
      var x1 := a[..|a| - |b1|] + prefix1;
      var x2 := a[..|a| - |b2|] + prefix2;
      assert a == a[..|a| - |b1|] + b1;
      assert a == x1 + "_" + Decimal(m);
      assert a == a[..|a| - |b2|] + b2;
      assert a == x2 + "_" + Decimal(n);
      DecimalHasNoUnderscore(m);
      DecimalHasNoUnderscore(n);
      SameTailAfterUnderscore(x1, Decimal(m), x2, Decimal(n));
      DecimalInjective(m, n);
    }
  }

  /** The `tempfile` replacement: one counter shared by every caller. */
  class TempFile {
    var counter: nat
    var root: string
    var prefix: string
    var dirs: set<string>   // directories that exist on the filesystem

    constructor (existing: set<string>)
      ensures counter == 0 && root == "/tmp" && prefix == "static_tmp" && dirs == existing
    {
      counter := 0;
      root := "/tmp";
      prefix := "static_tmp";
      dirs := existing;
    }

    /** `_get_name`: advance the counter, then name the file after it. */
    method GetName(prefix: Option<string>) returns (name: string)
      modifies this
      ensures counter == old(counter) + 1
      ensures root == old(root) && this.prefix == old(this.prefix) && dirs == old(dirs)
      ensures name == TempName(root, Or(prefix, Some(this.prefix)).value, counter)
    {
      counter := counter + 1;
      name := PathJoin(root, Or(prefix, Some(this.prefix)).value + "_" + Decimal(counter));
    }

    /** `mktemp`: a fresh name; nothing is created. */
    method Mktemp(prefix: Option<string>) returns (name: string)
      modifies this
      ensures counter == old(counter) + 1
      ensures root == old(root) && this.prefix == old(this.prefix) && dirs == old(dirs)
      ensures name == TempName(root, Or(prefix, Some(this.prefix)).value, counter)
    {
      name := GetName(prefix);
    }

    /** `mkdtemp`: a fresh name and a directory by that name. `os.makedirs`
        raises (`existed`) when the directory is already there. */
    method Mkdtemp(prefix: Option<string>) returns (name: string, existed: bool)
      modifies this
      ensures counter == old(counter) + 1
      ensures root == old(root) && this.prefix == old(this.prefix)
      ensures name == TempName(root, Or(prefix, Some(this.prefix)).value, counter)
      ensures existed <==> name in old(dirs)
      ensures dirs == old(dirs) + {name}
    {
      name := GetName(prefix);
      existed := name in dirs;
      dirs := dirs + {name};
    }
  }

  // ---------------------------------------------------------------------------
  // Keys

  /** `[inspect.getmodule(func).__name__, func.__name__]`. */
  function FunctionKeys(moduleName: string, name: string): seq<PyValue> {
    [Str(moduleName), Str(name)]
  }

  /** `[x for x in xs if keep(x)]`. */
  function Filter(xs: seq<PyValue>, keep: PyValue -> bool): (r: seq<PyValue>)
    ensures |r| <= |xs|
    ensures forall j :: 0 <= j < |r| ==> keep(r[j]) && r[j] in xs
    ensures (forall j :: 0 <= j < |xs| ==> !keep(xs[j])) ==> r == []
  {
    if |xs| == 0 then [] else (if keep(xs[0]) then [xs[0]] else []) + Filter(xs[1..], keep)
  }

  /** A Python object as `isinstance` sees it: a value, or a class such as `int`. */
  datatype PyObject = Instance(v: PyValue) | Class(name: string)

  /** `isinstance(o, str)`. */
  predicate IsInstanceOfStr(o: PyObject) {
    o.Instance? && o.v.Str?
  }

  /** `[x for x in args if isinstance(int, str)]`: the filter asks whether the
      class `int` is a string, never whether `x` is, so nothing is kept. */
  function PositionalKeys(args: seq<PyValue>): (r: seq<PyValue>)
    ensures r == []
  {
    Filter(args, x => IsInstanceOfStr(Class("int")))
  }

  /** `[f"{k}:{v}" for k, v in kwargs.items()]`. */
  function KeywordKeys(kwargs: Kwargs): (r: seq<PyValue>)
    ensures |r| == |kwargs|
    ensures forall i :: 0 <= i < |kwargs| ==> r[i] == Str(kwargs[i].0 + ":" + Format(kwargs[i].1))
  {
    if |kwargs| == 0 then []
    else [Str(kwargs[0].0 + ":" + Format(kwargs[0].1))] + KeywordKeys(kwargs[1..])
  }

  /** The keys of `execute_all_keys`: the function's keys and one `"k:v"` per
      keyword argument, in order; the positional arguments never contribute. */
  function AllKeys(moduleName: string, name: string, args: seq<PyValue>, kwargs: Kwargs): (r: seq<PyValue>)
    ensures r == FunctionKeys(moduleName, name) + KeywordKeys(kwargs)
    ensures |r| == 2 + |kwargs|
  {
    FunctionKeys(moduleName, name) + PositionalKeys(args) + KeywordKeys(kwargs)
  }

  /** An entry of `item_list`: an argument position or a keyword name. */
  datatype Item = Position(i: int) | Name(k: string)

  /** Why a recorded call raised. */
  datatype Fault =
    | ReadExhausted          // the storage had no further answer
    | NotAPath               // the output to copy is not a path
    | IndexError(index: int)
    | KeyError(key: string)
    | NotARecord             // a stored value that is not a response record
    | BadField(name: string) // a response record entry missing or of the wrong kind

  /** The key one item selects: `args[i]` or `kwargs[k]`. */
  function Select(item: Item, args: seq<PyValue>, kwargs: Kwargs): (r: Result<PyValue, Fault>)
    ensures item.Position? ==>
      (r.Success? <==> -|args| <= item.i < |args|) && (r.Failure? ==> r.error == IndexError(item.i))
    ensures item.Name? ==>
      (r.Success? <==> exists j :: 0 <= j < |kwargs| && kwargs[j].0 == item.k) && (r.Failure? ==> r.error == KeyError(item.k))
  {
    match item
    case Position(i) => if Index(args, i).Some? then Success(Index(args, i).value) else Failure(IndexError(i))
    case Name(k) => if Lookup(kwargs, k).Some? then Success(Lookup(kwargs, k).value) else Failure(KeyError(k))
  }

  /** The keys the items select, or the fault of the first one that selects nothing. */
  function SelectAll(items: seq<Item>, args: seq<PyValue>, kwargs: Kwargs): (r: Result<seq<PyValue>, Fault>)
    ensures r.Success? <==> forall j :: 0 <= j < |items| ==> Select(items[j], args, kwargs).Success?
    ensures r.Success? ==>
      && |r.value| == |items|
      && forall j :: 0 <= j < |items| ==> r.value[j] == Select(items[j], args, kwargs).value
    ensures r.Failure? ==>
      exists j ::
        && 0 <= j < |items|
        && (forall i :: 0 <= i < j ==> Select(items[i], args, kwargs).Success?)
        && Select(items[j], args, kwargs) == Failure(r.error)
  {
    if |items| == 0 then Success([])
    else match Select(items[0], args, kwargs)
      case Failure(e) => Failure(e)
      case Success(v) =>
        var rest := SelectAll(items[1..], args, kwargs);
        if rest.Failure? then
          ghost var j :| 0 <= j < |items[1..]| && (forall i :: 0 <= i < j ==> Select(items[1..][i], args, kwargs).Success?)
            && Select(items[1..][j], args, kwargs) == Failure(rest.error);
          assert forall i :: 0 <= i < j + 1 ==> Select(items[i], args, kwargs).Success? by {
            forall i | 0 <= i < j + 1 ensures Select(items[i], args, kwargs).Success? {
              if i > 0 { assert items[i] == items[1..][i - 1]; }
            }
          }
          assert items[j + 1] == items[1..][j];
          Failure(rest.error)
        else Success([v] + rest.value)
  }

  /** The key building of `decorator_selected_keys`: the function's keys, then
      one key per item, appended in a loop. */
  method SelectedKeys(moduleName: string, name: string, items: seq<Item>, args: seq<PyValue>, kwargs: Kwargs)
    returns (r: Result<seq<PyValue>, Fault>)
    ensures r == match SelectAll(items, args, kwargs)
      case Success(vs) => Success(FunctionKeys(moduleName, name) + vs)
      case Failure(e) => Failure(e)
  {
    var keys := FunctionKeys(moduleName, name);
    for n := 0 to |items|
      invariant forall j :: 0 <= j < n ==> Select(items[j], args, kwargs).Success?
      invariant |keys| == 2 + n && keys[..2] == FunctionKeys(moduleName, name)
      invariant forall j :: 0 <= j < n ==> keys[2 + j] == Select(items[j], args, kwargs).value
    {
      var item := items[n];
      match item
      case Position(i) =>
        var v := Index(args, i);
        if v.None? {
          SelectAllStopsAt(items, args, kwargs, n);
          return Failure(IndexError(i));
        }
        keys := keys + [v.value];
      case Name(k) =>
        var v := Lookup(kwargs, k);
        if v.None? {
          SelectAllStopsAt(items, args, kwargs, n);
          return Failure(KeyError(k));
        }
        keys := keys + [v.value];
    }
    ghost var all := SelectAll(items, args, kwargs);
    assert keys[2..] == all.value;
    assert keys == FunctionKeys(moduleName, name) + all.value;
    r := Success(keys);
  }

  /** The first item that selects nothing decides the fault. */
  lemma {:induction false} SelectAllStopsAt(items: seq<Item>, args: seq<PyValue>, kwargs: Kwargs, n: nat)
    requires n < |items|
    requires forall j :: 0 <= j < n ==> Select(items[j], args, kwargs).Success?
    requires Select(items[n], args, kwargs).Failure?
    ensures SelectAll(items, args, kwargs) == Failure(Select(items[n], args, kwargs).error)
    decreases n
  {
    if n > 0 {
      var rest := items[1..];
      assert forall j :: 0 <= j < n - 1 ==> rest[j] == items[j + 1];
      SelectAllStopsAt(rest, args, kwargs, n - 1);
      assert rest[n - 1] == items[n];
    }
  }

  // ---------------------------------------------------------------------------
  // Copies and the argument naming of `store_files_guess_args`

  /** A copy made by `_copy_logic`: the files at `from` copied to `to`. */
  datatype Copy = Copy(from: PyValue, to: PyValue)

  /** `_copy_logic`: recording copies the program's file into the storage;
      replaying copies the stored file back over the program's. */
  function CopyLogic(writeMode: bool, source: PyValue, destination: PyValue): Copy {
    if writeMode then Copy(source, destination) else Copy(destination, source)
  }

  /** An argument of a call: by position or by keyword. */
  datatype Param = Positional(i: nat) | Keyword(k: string)

  /** The file name an argument is stored under: `str(position)` or the keyword. */
  function ParamName(p: Param): string {
    match p
    case Positional(i) => Decimal(i)
    case Keyword(k) => k
  }

  /** The replay reading of a stored name: digits are a position, anything else is a keyword. */
  function ParamOf(item: string): (p: Param)
    ensures p.Keyword? <==> !IsDigits(item)
  {
    if IsDigits(item) then Positional(ParseDecimal(item)) else Keyword(item)
  }

  /** A stored name is read back as the argument it was stored for, unless a
      keyword name is all digits. */
  lemma ParamNameRoundTrip(p: Param)
    requires p.Keyword? ==> !IsDigits(p.k)
    ensures ParamOf(ParamName(p)) == p
  {
    if p.Positional? {
      DecimalRoundTrip(p.i);
    }
  }

  /** The value of an argument in a call. */
  function ParamValue(p: Param, args: seq<PyValue>, kwargs: Kwargs): Result<PyValue, Fault> {
    match p
    case Positional(i) => if i < |args| then Success(args[i]) else Failure(IndexError(i))
    case Keyword(k) => if Lookup(kwargs, k).Some? then Success(Lookup(kwargs, k).value) else Failure(KeyError(k))
  }

  /** The positional arguments below `n` that recording stores: strings naming
      an existing path, with their values. */
  function StoredPositions(args: seq<PyValue>, pathExists: PyValue -> bool, n: nat): (r: seq<(Param, PyValue)>)
    requires n <= |args|
    ensures forall j :: 0 <= j < |r| ==>
      && r[j].0.Positional? && r[j].0.i < n && r[j].1 == args[r[j].0.i]
      && args[r[j].0.i].Str? && pathExists(args[r[j].0.i])
  {
    if n == 0 then []
    else
      var last := if args[n - 1].Str? && pathExists(args[n - 1]) then [(Positional(n - 1), args[n - 1])] else [];
      StoredPositions(args, pathExists, n - 1) + last
  }

  /** The keyword arguments among the first `n` that recording stores: those
      whose value names an existing path. */
  function StoredKeywords(kwargs: Kwargs, pathExists: PyValue -> bool, n: nat): (r: seq<(Param, PyValue)>)
    requires n <= |kwargs|
    ensures forall j :: 0 <= j < |r| ==>
      && r[j].0.Keyword? && pathExists(r[j].1)
      && exists i :: 0 <= i < n && kwargs[i] == (r[j].0.k, r[j].1)
  {
    if n == 0 then []
    else
      var last := if pathExists(kwargs[n - 1].1) then [(Keyword(kwargs[n - 1].0), kwargs[n - 1].1)] else [];
      StoredKeywords(kwargs, pathExists, n - 1) + last
  }

  /** The arguments recording stores, in the order it stores them. */
  function StoredArgs(args: seq<PyValue>, kwargs: Kwargs, pathExists: PyValue -> bool): seq<(Param, PyValue)> {
    StoredPositions(args, pathExists, |args|) + StoredKeywords(kwargs, pathExists, |kwargs|)
  }

  /** The copy recording makes for one stored argument. */
  function RecordCopy(dir: string, a: (Param, PyValue)): Copy {
    CopyLogic(true, a.1, Str(PathJoin(dir, ParamName(a.0))))
  }

  /** The copies recording makes for the stored arguments, in order. */
  function RecordCopies(dir: string, saved: seq<(Param, PyValue)>): (r: seq<Copy>)
  {
    seq(|saved|, j requires 0 <= j < |saved| => RecordCopy(dir, saved[j]))
  }

  lemma RecordCopiesSnoc(dir: string, saved: seq<(Param, PyValue)>, a: (Param, PyValue))
    ensures RecordCopies(dir, saved + [a]) == RecordCopies(dir, saved) + [RecordCopy(dir, a)]
  {
  }

  lemma ConcatAssociates<T>(a: seq<T>, b: seq<T>, c: seq<T>)
    ensures (a + b) + c == a + (b + c)
  {
  }

  lemma RecordCopiesAppend(dir: string, xs: seq<(Param, PyValue)>, ys: seq<(Param, PyValue)>)
    ensures RecordCopies(dir, xs + ys) == RecordCopies(dir, xs) + RecordCopies(dir, ys)
  {
  }

  /** The copy replaying makes for one listed name, or the fault it raises. */
  function ReplayCopy(dir: string, item: string, args: seq<PyValue>, kwargs: Kwargs): Result<Copy, Fault> {
    match ParamValue(ParamOf(item), args, kwargs)
    case Success(arg) => Success(CopyLogic(false, arg, Str(PathJoin(dir, item))))
    case Failure(e) => Failure(e)
  }

  /** Replaying the name recording stored an argument under copies the stored
      file back onto that same argument: the reverse of the recording's copy.
      Keyword names made of digits are excluded: they are read back as positions. */
  lemma ReplayReversesRecording(dir: string, args: seq<PyValue>, kwargs: Kwargs, pathExists: PyValue -> bool, j: nat)
    requires DistinctNames(kwargs)
    requires forall i :: 0 <= i < |kwargs| ==> !IsDigits(kwargs[i].0)
    requires j < |StoredArgs(args, kwargs, pathExists)|
    ensures var a := StoredArgs(args, kwargs, pathExists)[j];
      var c := RecordCopy(dir, a);
      ReplayCopy(dir, ParamName(a.0), args, kwargs) == Success(Copy(c.to, c.from))
  {
    var a := StoredArgs(args, kwargs, pathExists)[j];
    var positions := StoredPositions(args, pathExists, |args|);
    if j < |positions| {
      assert a == positions[j];
    } else {
      assert a == StoredKeywords(kwargs, pathExists, |kwargs|)[j - |positions|];
      var i :| 0 <= i < |kwargs| && kwargs[i] == (a.0.k, a.1);
      LookupFinds(kwargs, i);
    }
    ParamNameRoundTrip(a.0);
  }

  /** `args[position]` or `kwargs[key]` for an entry of `files_params`: the
      keyword wins when it was passed. */
  function ArgReference(entry: (string, int), f: FunctionCall): Result<PyValue, Fault> {
    if Lookup(f.kwargs, entry.0).Some? then Success(Lookup(f.kwargs, entry.0).value)
    else if Index(f.args, entry.1).Some? then Success(Index(f.args, entry.1).value)
    else Failure(IndexError(entry.1))
  }

  /** What a loop of copies did: the copies it made, in order, and the fault
      that stopped it, if any. */
  datatype Attempt = Attempt(done: seq<Copy>, fault: Option<Fault>)

  /** The fault, if any, ends the loop: later steps change nothing. */
  function Continue(a: Attempt, step: Result<Copy, Fault>): Attempt {
    if a.fault.Some? then a
    else match step
      case Success(c) => Attempt(a.done + [c], None)
      case Failure(e) => Attempt(a.done, Some(e))
  }

  /** A loop of copies run step by step: it stops at the first fault. */
  function Chain(steps: seq<Result<Copy, Fault>>): Attempt
    decreases |steps|
  {
    if steps == [] then Attempt([], None)
    else Continue(Chain(steps[..|steps| - 1]), steps[|steps| - 1])
  }

  /** A chain stops at its first faulty step, having made the copies of every
      step before it; without a faulty step it makes every step's copy, in order. */
  lemma {:induction false} ChainMeaning(steps: seq<Result<Copy, Fault>>)
    ensures var a := Chain(steps);
      && (a.fault.None? <==> forall j :: 0 <= j < |steps| ==> steps[j].Success?)
      && (a.fault.None? ==> |a.done| == |steps|)
      && (a.fault.Some? ==> |a.done| < |steps| && steps[|a.done|] == Failure(a.fault.value))
      && |a.done| <= |steps|
      && forall j :: 0 <= j < |a.done| ==> steps[j] == Success(a.done[j])
    decreases |steps|
  {
    if steps != [] {
      var init := steps[..|steps| - 1];
      ChainMeaning(init);
      assert forall j :: 0 <= j < |init| ==> init[j] == steps[j];
    }
  }

  /** Once a chain has raised, the remaining steps change nothing. */
  lemma {:induction false} ChainStops(steps: seq<Result<Copy, Fault>>, k: nat)
    requires k <= |steps|
    requires Chain(steps[..k]).fault.Some?
    ensures Chain(steps) == Chain(steps[..k])
    decreases |steps|
  {
    if k < |steps| {
      var init := steps[..|steps| - 1];
      assert init[..k] == steps[..k];
      ChainStops(init, k);
    } else {
      assert steps[..k] == steps;
    }
  }

  /** Extending the steps by one extends the chain by one step. */
  lemma ChainStep(steps: seq<Result<Copy, Fault>>, n: nat)
    requires n < |steps|
    ensures Chain(steps[..n + 1]) == Continue(Chain(steps[..n]), steps[n])
  {
    assert steps[..n + 1][..n] == steps[..n];
  }

  /** A step that succeeds after steps that all succeeded adds its copy. */
  lemma ChainAdvances(steps: seq<Result<Copy, Fault>>, n: nat, c: Copy)
    requires n < |steps| && Chain(steps[..n]).fault.None? && steps[n] == Success(c)
    ensures Chain(steps[..n + 1]) == Attempt(Chain(steps[..n]).done + [c], None)
  {
    ChainStep(steps, n);
  }

  /** A step that fails after steps that all succeeded ends the whole chain. */
  lemma ChainHalts(steps: seq<Result<Copy, Fault>>, n: nat, e: Fault)
    requires n < |steps| && Chain(steps[..n]).fault.None? && steps[n] == Failure(e)
    ensures Chain(steps) == Attempt(Chain(steps[..n]).done, Some(e))
  {
    ChainStep(steps, n);
    ChainStops(steps, n + 1);
  }

  /** The steps of the replay loop of `store_files_guess_args`, one per listed name. */
  function ReplaySteps(dir: string, listing: seq<string>, args: seq<PyValue>, kwargs: Kwargs): (r: seq<Result<Copy, Fault>>)
    ensures |r| == |listing|
  {
    seq(|listing|, j requires 0 <= j < |listing| => ReplayCopy(dir, listing[j], args, kwargs))
  }

  /** The copy `store_files_arg_references` makes for one entry, into directory number `count`. */
  function ReferenceCopy(writeMode: bool, dataDir: string, count: nat, entry: (string, int), f: FunctionCall): Result<Copy, Fault> {
    match ArgReference(entry, f)
    case Success(v) => Success(CopyLogic(writeMode, v, Str(PathJoin(dataDir, Decimal(count)))))
    case Failure(e) => Failure(e)
  }

  /** The steps of the loop of `store_files_arg_references`: entry `j` goes to
      directory number `count + j`. */
  function ReferenceSteps(writeMode: bool, dataDir: string, count: nat, f: FunctionCall, entries: seq<(string, int)>): (r: seq<Result<Copy, Fault>>)
    ensures |r| == |entries|
  {
    seq(|entries|, j requires 0 <= j < |entries| => ReferenceCopy(writeMode, dataDir, count + j, entries[j], f))
  }

  lemma ReferenceStepAt(writeMode: bool, dataDir: string, count: nat, f: FunctionCall, entries: seq<(string, int)>, n: nat)
    requires n < |entries|
    ensures ReferenceSteps(writeMode, dataDir, count, f, entries)[n] == ReferenceCopy(writeMode, dataDir, count + n, entries[n], f)
  {
  }

  /** The names recording stores the arguments under. */
  function StoredNames(args: seq<PyValue>, kwargs: Kwargs, pathExists: PyValue -> bool): set<string> {
    var saved := StoredArgs(args, kwargs, pathExists);
    set j | 0 <= j < |saved| :: ParamName(saved[j].0)
  }

  /** Replaying a directory whose listing, in whatever order `os.listdir`
      gives it, holds only names recording stored arguments under raises
      nothing, and each listed name's copy is the reverse of the recording
      copy of the argument stored under that name. */
  lemma RecordThenReplay(dir: string, args: seq<PyValue>, kwargs: Kwargs, pathExists: PyValue -> bool, listing: seq<string>)
    requires DistinctNames(kwargs)
    requires forall i :: 0 <= i < |kwargs| ==> !IsDigits(kwargs[i].0)
    requires forall m :: 0 <= m < |listing| ==> listing[m] in StoredNames(args, kwargs, pathExists)
    ensures var a := Chain(ReplaySteps(dir, listing, args, kwargs));
      var saved := StoredArgs(args, kwargs, pathExists);
      && a.fault.None? && |a.done| == |listing|
      && forall m, j :: 0 <= m < |listing| && 0 <= j < |saved| && listing[m] == ParamName(saved[j].0) ==>
           a.done[m] == Copy(RecordCopy(dir, saved[j]).to, RecordCopy(dir, saved[j]).from)
  {
    var steps := ReplaySteps(dir, listing, args, kwargs);
    var saved := StoredArgs(args, kwargs, pathExists);
    forall m, j | 0 <= m < |listing| && 0 <= j < |saved| && listing[m] == ParamName(saved[j].0)
      ensures steps[m] == Success(Copy(RecordCopy(dir, saved[j]).to, RecordCopy(dir, saved[j]).from))
    {
      ReplayReversesRecording(dir, args, kwargs, pathExists, j);
    }
    forall m | 0 <= m < |listing|
      ensures steps[m].Success?
    {
      var j :| 0 <= j < |saved| && listing[m] == ParamName(saved[j].0);
      ReplayReversesRecording(dir, args, kwargs, pathExists, j);
    }
    ChainMeaning(steps);
  }

  // ---------------------------------------------------------------------------
  // The storage and the decorators

  /** A stored value: a plain output, or a response record (a dict). */
  datatype Value = Py(v: PyValue) | Record(fields: map<string, Field>)

  /** An entry of a response record. */
  datatype Field =
    | IntField(i: int)
    | BytesField(b: seq<bv8>)
    | TextField(s: string)
    | NoneField
    | HeadersField(h: map<string, string>)
    | KeysField(keys: seq<PyValue>)

  /** A call of a decorated function, with the value the function returns. */
  datatype FunctionCall = FunctionCall(moduleName: string, name: string, args: seq<PyValue>, kwargs: Kwargs, result: PyValue)

  /** The storage's fields. */
  datatype StorageState = StorageState(
    writeMode: bool,
    storageFile: string,
    dirCount: nat,
    storeCalls: seq<(seq<PyValue>, Value)>,
    readCalls: seq<seq<PyValue>>,
    answers: seq<Value>,
    copies: seq<Copy>,
    made: set<string>)

  /** `n` copies of `keys`. */
  function Repeat(keys: seq<PyValue>, n: nat): (r: seq<seq<PyValue>>)
    ensures |r| == n && forall i :: 0 <= i < n ==> r[i] == keys
  {
    if n == 0 then [] else Repeat(keys, n - 1) + [keys]
  }

  /** The output of `store_function_output` when recording: the function's
      own result in write mode, else the storage's next answer. */
  function RecordedOutput(s: StorageState, f: FunctionCall): Result<Value, Fault> {
    if s.writeMode then Success(Py(f.result))
    else if |s.readCalls| < |s.answers| then Success(s.answers[|s.readCalls|])
    else Failure(ReadExhausted)
  }

  /** The storage after `store_function_output` when recording: one `store` in
      write mode, else one `read`, both under the function's keys. */
  function RecordedState(s: StorageState, f: FunctionCall): StorageState {
    var keys := FunctionKeys(f.moduleName, f.name);
    if s.writeMode then s.(storeCalls := s.storeCalls + [(keys, Py(f.result))])
    else s.(readCalls := s.readCalls + [keys])
  }

  /** The keys depend only on the function, not on its arguments: two calls of
      one function leave the storage alike, and when replaying they also
      return the same output whatever their arguments and results. */
  lemma KeysIgnoreArguments(s: StorageState, f: FunctionCall, g: FunctionCall)
    requires f.moduleName == g.moduleName && f.name == g.name
    ensures !s.writeMode ==> RecordedOutput(s, f) == RecordedOutput(s, g) && RecordedState(s, f) == RecordedState(s, g)
    ensures s.writeMode ==> RecordedOutput(s, f) == Success(Py(f.result))
    ensures s.writeMode ==> RecordedState(s, f).storeCalls[|s.storeCalls|] == (FunctionKeys(g.moduleName, g.name), Py(f.result))
  {
  }

  /** The storage and the output after a decorated call while recording. */
  datatype Decorated = Decorated(state: StorageState, output: Result<Value, Fault>)

  /** `store_files_return_value` while recording: the data directory is made,
      directory number `dir_count` is taken, the function is recorded, and its
      output path is copied to or from that directory. */
  function ReturnValueStep(s0: StorageState, f: FunctionCall): Decorated {
    var dataDir := Dirname(s0.storageFile);
    var before := s0.(dirCount := s0.dirCount + 1, made := s0.made + {dataDir});
    var called := RecordedOutput(before, f);
    var s := RecordedState(before, f);
    if called.Failure? then Decorated(s, called)
    else if called.value.Record? then Decorated(s, Failure(NotAPath))
    else
      var to := Str(PathJoin(dataDir, Decimal(s0.dirCount)));
      Decorated(s.(copies := s.copies + [CopyLogic(s.writeMode, called.value.v, to)]), called)
  }

  /** `store_files_arg_references` while recording: the function is recorded,
      then each entry of `files_params` takes the next directory number. */
  function ArgReferencesStep(s0: StorageState, f: FunctionCall, filesParams: seq<(string, int)>): Decorated {
    var called := RecordedOutput(s0, f);
    var s := RecordedState(s0, f);
    if called.Failure? then Decorated(s, called)
    else
      var a := Chain(ReferenceSteps(s.writeMode, Dirname(s.storageFile), s.dirCount, f, filesParams));
      Decorated(s.(dirCount := s.dirCount + |a.done|, copies := s.copies + a.done),
                if a.fault.Some? then Failure(a.fault.value) else called)
  }

  /** `store_files_guess_args` while recording: directory number `dir_count`
      is made and taken, the function is recorded, then the arguments naming
      existing paths are stored (write mode) or the listed names copied back. */
  function GuessArgsStep(s0: StorageState, f: FunctionCall, pathExists: PyValue -> bool, listing: seq<string>): Decorated {
    var dir := PathJoin(Dirname(s0.storageFile), Decimal(s0.dirCount));
    var before := s0.(dirCount := s0.dirCount + 1, made := s0.made + {dir});
    var called := RecordedOutput(before, f);
    var s := RecordedState(before, f);
    if called.Failure? then Decorated(s, called)
    else if s.writeMode then
      Decorated(s.(copies := s.copies + RecordCopies(dir, StoredArgs(f.args, f.kwargs, pathExists))), called)
    else
      var a := Chain(ReplaySteps(dir, listing, f.args, f.kwargs));
      Decorated(s.(copies := s.copies + a.done), if a.fault.Some? then Failure(a.fault.value) else called)
  }

  /** `store_files_return_value` and `store_files_guess_args` take exactly one
      directory number per call; `store_files_arg_references` takes one per
      entry of `files_params` when it returns, and no more when it raises. */
  lemma DirCountPerCall(s0: StorageState, f: FunctionCall, pathExists: PyValue -> bool, listing: seq<string>, filesParams: seq<(string, int)>)
    ensures ReturnValueStep(s0, f).state.dirCount == s0.dirCount + 1
    ensures GuessArgsStep(s0, f, pathExists, listing).state.dirCount == s0.dirCount + 1
    ensures var d := ArgReferencesStep(s0, f, filesParams);
      && (d.output.Success? ==> d.state.dirCount == s0.dirCount + |filesParams|)
      && s0.dirCount <= d.state.dirCount <= s0.dirCount + |filesParams|
  {
    var s := RecordedState(s0, f);
    ChainMeaning(ReferenceSteps(s.writeMode, Dirname(s.storageFile), s.dirCount, f, filesParams));
  }

  /** When `store_files_arg_references` returns, entry `j` of `files_params`
      was copied to or from directory number `dir_count + j` of the data
      directory; when it raises, an entry named an argument the call lacks. */
  lemma ArgReferencesCopies(s0: StorageState, f: FunctionCall, filesParams: seq<(string, int)>)
    requires RecordedOutput(s0, f).Success?
    ensures var d := ArgReferencesStep(s0, f, filesParams);
      && (d.output.Success? <==> forall j :: 0 <= j < |filesParams| ==> ArgReference(filesParams[j], f).Success?)
      && (d.output.Success? ==>
           && |d.state.copies| == |s0.copies| + |filesParams|
           && forall j :: 0 <= j < |filesParams| ==>
                d.state.copies[|s0.copies| + j]
                == CopyLogic(s0.writeMode, ArgReference(filesParams[j], f).value,
                             Str(PathJoin(Dirname(s0.storageFile), Decimal(s0.dirCount + j)))))
  {
    var s := RecordedState(s0, f);
    assert s.writeMode == s0.writeMode && s.storageFile == s0.storageFile;
    assert s.dirCount == s0.dirCount && s.copies == s0.copies;
    var steps := ReferenceSteps(s0.writeMode, Dirname(s0.storageFile), s0.dirCount, f, filesParams);
    ChainMeaning(steps);
    var a := Chain(steps);
    forall j | 0 <= j < |filesParams|
      ensures steps[j].Success? <==> ArgReference(filesParams[j], f).Success?
      ensures steps[j].Success? ==>
        steps[j].value == CopyLogic(s0.writeMode, ArgReference(filesParams[j], f).value,
                                    Str(PathJoin(Dirname(s0.storageFile), Decimal(s0.dirCount + j))))
    {
      ReferenceStepAt(s0.writeMode, Dirname(s0.storageFile), s0.dirCount, f, filesParams, j);
    }
    if a.fault.None? {
      assert forall j :: 0 <= j < |filesParams| ==> steps[j] == Success(a.done[j]);
    }
  }

  /** Every string argument naming an existing path is stored, under its
      position, and so is every keyword argument whose value names one. */
  lemma {:induction false} StoredPositionsComplete(args: seq<PyValue>, pathExists: PyValue -> bool, n: nat, i: nat)
    requires i < n <= |args|
    requires args[i].Str? && pathExists(args[i])
    ensures (Positional(i), args[i]) in StoredPositions(args, pathExists, n)
    decreases n
  {
    if i < n - 1 {
      StoredPositionsComplete(args, pathExists, n - 1, i);
    }
  }

  lemma {:induction false} StoredKeywordsComplete(kwargs: Kwargs, pathExists: PyValue -> bool, n: nat, i: nat)
    requires i < n <= |kwargs|
    requires pathExists(kwargs[i].1)
    ensures (Keyword(kwargs[i].0), kwargs[i].1) in StoredKeywords(kwargs, pathExists, n)
    decreases n
  {
    if i < n - 1 {
      StoredKeywordsComplete(kwargs, pathExists, n - 1, i);
    }
  }

  /** `STORAGE`, with the `dir_count` attribute this code adds to it. `storeCalls`
      logs the `store` calls, `readCalls` the `read` calls; the `n`-th `read`
      returns `answers[n]`, and raises when there is none. `copies` logs
      `_copy_logic` and `made` the directories `os.makedirs` created. */
  class Storage {
    var writeMode: bool
    var storageFile: string
    var dirCount: nat
    var storeCalls: seq<(seq<PyValue>, Value)>
    var readCalls: seq<seq<PyValue>>
    var answers: seq<Value>
    var copies: seq<Copy>
    var made: set<string>

    function State(): StorageState
      reads this
    {
      StorageState(writeMode, storageFile, dirCount, storeCalls, readCalls, answers, copies, made)
    }

    constructor (writeMode: bool, storageFile: string, answers: seq<Value>)
      ensures State() == StorageState(writeMode, storageFile, 0, [], [], answers, [], {})
    {
      this.writeMode := writeMode;
      this.storageFile := storageFile;
      this.answers := answers;
      dirCount := 0;
      storeCalls := [];
      readCalls := [];
      copies := [];
      made := {};
    }

    method Store(keys: seq<PyValue>, v: Value)
      modifies this
      ensures State() == old(State()).(storeCalls := old(storeCalls) + [(keys, v)])
    {
      storeCalls := storeCalls + [(keys, v)];
    }

    method Read(keys: seq<PyValue>) returns (r: Result<Value, Fault>)
      modifies this
      ensures State() == old(State()).(readCalls := old(readCalls) + [keys])
      ensures r == if |old(readCalls)| < |answers| then Success(answers[|old(readCalls)|]) else Failure(ReadExhausted)
    {
      r := if |readCalls| < |answers| then Success(answers[|readCalls|]) else Failure(ReadExhausted);
      readCalls := readCalls + [keys];
    }

    /** `store_function_output`: not recording, just call; recording, call and
        store the output under the function's keys; replaying, read the output
        instead of calling. `called` says whether the function ran. */
    method RecordedFunction(recording: bool, f: FunctionCall) returns (output: Result<Value, Fault>, called: bool)
      modifies this
      ensures !recording ==> State() == old(State()) && output == Success(Py(f.result)) && called
      ensures recording ==>
        && State() == RecordedState(old(State()), f)
        && output == RecordedOutput(old(State()), f)
        && called == old(writeMode)
    {
      if !recording {
        return Success(Py(f.result)), true;
      }
      var keys := FunctionKeys(f.moduleName, f.name);
      if writeMode {
        output, called := Success(Py(f.result)), true;
        Store(keys, output.value);
      } else {
        output := Read(keys);
        called := false;
      }
    }

    /** `store_files_return_value`: the output path is copied to or from
        directory number `dir_count`, which is taken before the call; the data
        directory is created first. */
    method StoreFilesReturnValue(recording: bool, f: FunctionCall) returns (output: Result<Value, Fault>)
      modifies this
      ensures !recording ==> State() == old(State()) && output == Success(Py(f.result))
      ensures recording ==> Decorated(State(), output) == ReturnValueStep(old(State()), f)
    {
      if !recording {
        return Success(Py(f.result));
      }
      var dataDir := Dirname(storageFile);
      var currentDir := PathJoin(dataDir, Decimal(dirCount));
      made := made + {dataDir};
      dirCount := dirCount + 1;
      var called;
      output, called := RecordedFunction(recording, f);
      if output.Success? {
        if output.value.Record? {
          return Failure(NotAPath);
        }
        copies := copies + [CopyLogic(writeMode, output.value.v, Str(currentDir))];
      }
    }

    /** `store_files_arg_references`: after the call, one directory number per
        entry of `files_params`, taken in order; the argument is the keyword
        if given, else the positional argument at the entry's position. */
    method StoreFilesArgReferences(recording: bool, f: FunctionCall, filesParams: seq<(string, int)>)
      returns (output: Result<Value, Fault>)
      modifies this
      ensures !recording ==> State() == old(State()) && output == Success(Py(f.result))
      ensures recording ==> Decorated(State(), output) == ArgReferencesStep(old(State()), f, filesParams)
    {
      if !recording {
        return Success(Py(f.result));
      }
      var dataDir := Dirname(storageFile);
      var called;
      output, called := RecordedFunction(recording, f);
      if output.Failure? {
        return;
      }
      var e := CopyReferences(dataDir, f, filesParams);
      if e.Some? {
        output := Failure(e.value);
      }
    }

    /** The loop of `store_files_arg_references`. */
    method CopyReferences(dataDir: string, f: FunctionCall, filesParams: seq<(string, int)>) returns (e: Option<Fault>)
      modifies this
      ensures var a := Chain(ReferenceSteps(old(writeMode), dataDir, old(dirCount), f, filesParams));
        && State() == old(State()).(dirCount := old(dirCount) + |a.done|, copies := old(copies) + a.done)
        && e == a.fault
    {
      ghost var steps := ReferenceSteps(writeMode, dataDir, dirCount, f, filesParams);
      ghost var done: seq<Copy> := [];
      for n := 0 to |filesParams|
        invariant Chain(steps[..n]) == Attempt(done, None) && |done| == n
        invariant dirCount == old(dirCount) + n && copies == old(copies) + done
        invariant writeMode == old(writeMode) && storageFile == old(storageFile)
        invariant storeCalls == old(storeCalls) && readCalls == old(readCalls)
        invariant answers == old(answers) && made == old(made)
      {
        ReferenceStepAt(writeMode, dataDir, old(dirCount), f, filesParams, n);
        var param := ArgReference(filesParams[n], f);
        if param.Failure? {
          ChainHalts(steps, n, param.error);
          return Some(param.error);
        }
        var c := CopyLogic(writeMode, param.value, Str(PathJoin(dataDir, Decimal(dirCount))));
        ChainAdvances(steps, n, c);
        dirCount := dirCount + 1;
        copies := copies + [c];
        done := done + [c];
      }
      assert steps[..|steps|] == steps;
      e := None;
    }

    /** `store_files_guess_args`: one directory number per call, taken before
        it. Recording stores every string argument naming an existing path
        under its position and every keyword argument naming one under its
        name; replaying copies back every name the directory lists. */
    method StoreFilesGuessArgs(recording: bool, f: FunctionCall, pathExists: PyValue -> bool, listing: seq<string>)
      returns (output: Result<Value, Fault>)
      modifies this
      ensures !recording ==> State() == old(State()) && output == Success(Py(f.result))
      ensures recording ==> Decorated(State(), output) == GuessArgsStep(old(State()), f, pathExists, listing)
    {
      if !recording {
        return Success(Py(f.result));
      }
      var currentDir := PathJoin(Dirname(storageFile), Decimal(dirCount));
      made := made + {currentDir};
      dirCount := dirCount + 1;
      var called;
      output, called := RecordedFunction(recording, f);
      if output.Failure? {
        return;
      }
      if writeMode {
        RecordArgs(currentDir, f, pathExists);
      } else {
        var e := ReplayArgs(currentDir, f, listing);
        if e.Some? {
          output := Failure(e.value);
        }
      }
    }

    /** The recording loops of `store_files_guess_args`: positions first, then keywords. */
    method RecordArgs(dir: string, f: FunctionCall, pathExists: PyValue -> bool)
      modifies this
      ensures State() == old(State()).(copies := copies)
      ensures copies == old(copies) + RecordCopies(dir, StoredArgs(f.args, f.kwargs, pathExists))
    {
      ghost var positions := StoredPositions(f.args, pathExists, |f.args|);
      ghost var keywords := StoredKeywords(f.kwargs, pathExists, |f.kwargs|);
      ghost var before := copies;
      RecordPositions(dir, f.args, pathExists);
      RecordKeywords(dir, f.kwargs, pathExists);
      RecordCopiesAppend(dir, positions, keywords);
      ConcatAssociates(before, RecordCopies(dir, positions), RecordCopies(dir, keywords));
    }

    method RecordPositions(dir: string, args: seq<PyValue>, pathExists: PyValue -> bool)
      modifies this
      ensures State() == old(State()).(copies := copies)
      ensures copies == old(copies) + RecordCopies(dir, StoredPositions(args, pathExists, |args|))
    {
      for position := 0 to |args|
        invariant State() == old(State()).(copies := old(copies) + RecordCopies(dir, StoredPositions(args, pathExists, position)))
      {
        var arg := args[position];
        ghost var saved := StoredPositions(args, pathExists, position);
        if arg.Str? && pathExists(arg) {
          RecordCopiesSnoc(dir, saved, (Positional(position), arg));
          copies := copies + [CopyLogic(true, arg, Str(PathJoin(dir, Decimal(position))))];
        }
      }
    }

    method RecordKeywords(dir: string, kwargs: Kwargs, pathExists: PyValue -> bool)
      modifies this
      ensures State() == old(State()).(copies := copies)
      ensures copies == old(copies) + RecordCopies(dir, StoredKeywords(kwargs, pathExists, |kwargs|))
    {
      for n := 0 to |kwargs|
        invariant State() == old(State()).(copies := old(copies) + RecordCopies(dir, StoredKeywords(kwargs, pathExists, n)))
      {
        var (k, v) := kwargs[n];
        ghost var saved := StoredKeywords(kwargs, pathExists, n);
        if pathExists(v) {
          RecordCopiesSnoc(dir, saved, (Keyword(k), v));
          copies := copies + [CopyLogic(true, v, Str(PathJoin(dir, k)))];
        }
      }
    }

    /** The replay loop of `store_files_guess_args`, over the names `os.listdir`
        returned; a name that selects no argument raises. */
    method ReplayArgs(dir: string, f: FunctionCall, listing: seq<string>) returns (e: Option<Fault>)
      modifies this
      ensures var a := Chain(ReplaySteps(dir, listing, f.args, f.kwargs));
        State() == old(State()).(copies := old(copies) + a.done) && e == a.fault
    {
      ghost var steps := ReplaySteps(dir, listing, f.args, f.kwargs);
      for n := 0 to |listing|
        invariant var a := Chain(steps[..n]);
          a.fault.None? && State() == old(State()).(copies := old(copies) + a.done)
      {
        var item := listing[n];
        var currentPath := PathJoin(dir, item);
        var arg := ParamValue(ParamOf(item), f.args, f.kwargs);
        assert steps[n] == ReplayCopy(dir, item, f.args, f.kwargs);
        if arg.Failure? {
          ChainHalts(steps, n, arg.error);
          return Some(arg.error);
        }
        ChainAdvances(steps, n, CopyLogic(false, arg.value, Str(currentPath)));
        copies := copies + [CopyLogic(false, arg.value, Str(currentPath))];
      }
      assert steps[..|steps|] == steps;
      e := None;
    }
  }
}
