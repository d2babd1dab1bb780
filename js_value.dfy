/**
 * JavaScript values as the CLI handles them: parsed `package.json` manifests, webpack
 * configuration objects, minimist argument vectors, thrown errors and log lines.
 */
module JsValue {
  import opened Wrappers
  import opened Strings

  /**
   * A JavaScript value. `Obj` keeps its properties in enumeration order (the order a
   * `for…in` loop visits them); `Host` stands for an object made by foreign code (a
   * webpack plugin instance, a RegExp, a Buffer, ...) identified by its kind and the
   * arguments it was made from. Only integral numbers are modelled.
   */
  datatype Json =
    | Null
    | Bool(b: bool)
    | Num(n: int)
    | Str(s: string)
    | Arr(items: seq<Json>)
    | Obj(members: seq<Member>)
    | Host(kind: string, args: seq<Json>)

  datatype Member = Member(key: string, value: Json)

  /** An exception thrown by the modelled code or by the runtime. */
  datatype JsError =
    | TypeError(detail: string)
    | ModuleNotFound(path: string)
    | Thrown(message: string)

  /** A line handed to the logger. */
  datatype LogEntry = LogInfo(text: Json) | LogError(text: Json)

  /** The value an error takes when it travels down a Promise chain as a rejection reason. */
  function ErrorValue(e: JsError): Json {
    match e
    case TypeError(d) => Host("TypeError", [Str(d)])
    case ModuleNotFound(p) => Host("Error", [Str("Cannot find module '" + p + "'")])
    case Thrown(m) => Host("Error", [Str(m)])
  }

  /** The keys of a property list, in order. */
  function Keys(ms: seq<Member>): (r: seq<string>)
    ensures |r| == |ms| && forall i :: 0 <= i < |ms| ==> r[i] == ms[i].key
  {
    seq(|ms|, i requires 0 <= i < |ms| => ms[i].key)
  }

  /** The value of the first property named `k`, if any. */
  function Lookup(ms: seq<Member>, k: string): Option<Json> {
    if ms == [] then None
    else if ms[0].key == k then Some(ms[0].value)
    else Lookup(ms[1..], k)
  }

  /** Assignment `o[k] = v`: an existing property keeps its place, a new one goes last. */
  function Update(ms: seq<Member>, k: string, v: Json): seq<Member> {
    if ms == [] then [Member(k, v)]
    else if ms[0].key == k then [Member(k, v)] + ms[1..]
    else [ms[0]] + Update(ms[1..], k, v)
  }

  /** The first property named `k` decides what `Lookup` finds. */
  lemma {:induction false} LookupAt(ms: seq<Member>, k: string, i: nat)
    requires i < |ms| && ms[i].key == k
    requires forall j :: 0 <= j < i ==> ms[j].key != k
    ensures Lookup(ms, k) == Some(ms[i].value)
  {
    if i > 0 {
      LookupAt(ms[1..], k, i - 1);
    }
  }

  /** A key no property carries reads as undefined. */
  lemma {:induction false} LookupAbsent(ms: seq<Member>, k: string)
    requires forall j :: 0 <= j < |ms| ==> ms[j].key != k
    ensures Lookup(ms, k) == None
  {
    if ms != [] {
      LookupAbsent(ms[1..], k);
    }
  }

  /** `delete o[k]`. */
  function RemoveKey(ms: seq<Member>, k: string): seq<Member> {
    if ms == [] then []
    else if ms[0].key == k then RemoveKey(ms[1..], k)
    else [ms[0]] + RemoveKey(ms[1..], k)
  }

  lemma {:induction false} LookupUpdate(ms: seq<Member>, k: string, v: Json, k2: string)
    ensures Lookup(Update(ms, k, v), k2) == if k2 == k then Some(v) else Lookup(ms, k2)
  {
    if ms != [] && ms[0].key != k {
      LookupUpdate(ms[1..], k, v, k2);
    }
  }

  lemma {:induction false} LookupRemove(ms: seq<Member>, k: string, k2: string)
    ensures Lookup(RemoveKey(ms, k), k2) == if k2 == k then None else Lookup(ms, k2)
  {
    if ms != [] {
      LookupRemove(ms[1..], k, k2);
    }
  }

  /** Property read `o[k]` on a value known not to be null or undefined. */
  function Get(o: Json, k: string): Option<Json> {
    if o.Obj? then Lookup(o.members, k) else None
  }

  /** `o[k] = v` on an object: `k` now holds `v`, every other property reads as before. */
  function Put(o: Json, k: string, v: Json): (r: Json)
    requires o.Obj?
    ensures r.Obj?
    ensures forall k2 :: Get(r, k2) == if k2 == k then Some(v) else Get(o, k2)
  {
    forall k2 ensures Lookup(Update(o.members, k, v), k2) == if k2 == k then Some(v) else Lookup(o.members, k2) {
      LookupUpdate(o.members, k, v, k2);
    }
    Obj(Update(o.members, k, v))
  }

  /** `delete o[k]` on an object: `k` is gone, every other property reads as before. */
  function Delete(o: Json, k: string): (r: Json)
    requires o.Obj?
    ensures r.Obj?
    ensures forall k2 :: Get(r, k2) == if k2 == k then None else Get(o, k2)
  {
    forall k2 ensures Lookup(RemoveKey(o.members, k), k2) == if k2 == k then None else Lookup(o.members, k2) {
      LookupRemove(o.members, k, k2);
    }
    Obj(RemoveKey(o.members, k))
  }

  /** JavaScript truthiness of a possibly undefined value. */
  predicate Truthy(v: Option<Json>) {
    match v
    case None => false
    case Some(Null) => false
    case Some(Bool(b)) => b
    case Some(Num(n)) => n != 0
    case Some(Str(s)) => s != ""
    case Some(_) => true
  }

  /** `v[k]`: reading a property of undefined or null throws a TypeError. */
  function ReadProp(v: Option<Json>, k: string): (r: Result<Option<Json>, JsError>)
    ensures r.Failure? <==> v == None || v == Some(Null)
    ensures r.Success? ==> r.value == Get(v.value, k)
  {
    if v == None then Failure(TypeError("Cannot read property '" + k + "' of undefined"))
    else if v == Some(Null) then Failure(TypeError("Cannot read property '" + k + "' of null"))
    else Success(Get(v.value, k))
  }

  /** The decimal index keys "0", "1", ... of an array-like value of length `n`. */
  function IndexKeys(n: nat): (r: seq<string>)
    ensures |r| == n && forall i :: 0 <= i < n ==> r[i] == NatToString(i)
  {
    seq(n, i requires 0 <= i < n => NatToString(i))
  }

  /** The keys a `for (k in v)` loop visits, in order. */
  function ForInKeys(v: Option<Json>): seq<string> {
    match v
    case Some(Obj(ms)) => Keys(ms)
    case Some(Arr(items)) => IndexKeys(|items|)
    case Some(Str(s)) => IndexKeys(|s|)
    case _ => []
  }

  /** Node's `util.format('%s', v)` for primitive values. */
  function FormatS(v: Option<Json>): string {
    match v
    case None => "undefined"
    case Some(Null) => "null"
    case Some(Bool(b)) => if b then "true" else "false"
    case Some(Num(n)) => IntToString(n)
    case Some(Str(s)) => s
    case Some(_) => "[object]"
  }

  /** Node's `path.join(a, b)` for plain segments: a "." or empty base is dropped. */
  function PathJoin(a: string, b: string): string {
    if a == "." || a == "" then b else a + "/" + b
  }

  /** A minimist argument vector: the positional arguments `_` and the named flags. */
  datatype Argv = Argv(positional: seq<Json>, named: seq<Member>)

  /** `argv[name]` for a named flag. */
  function Flag(argv: Argv, name: string): Option<Json> {
    Lookup(argv.named, name)
  }

  /** `argv._[0]`. */
  function FirstPositional(argv: Argv): Option<Json> {
    if |argv.positional| == 0 then None else Some(argv.positional[0])
  }

  /** `argv[name] = v`. */
  function SetFlag(argv: Argv, name: string, v: Json): (r: Argv)
    ensures r.positional == argv.positional
    ensures forall n :: Flag(r, n) == if n == name then Some(v) else Flag(argv, n)
  {
    forall n ensures Lookup(Update(argv.named, name, v), n) == if n == name then Some(v) else Lookup(argv.named, n) {
      LookupUpdate(argv.named, name, v, n);
    }
    argv.(named := Update(argv.named, name, v))
  }
}
