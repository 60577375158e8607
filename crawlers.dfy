/** torequests/crawlers.py: `CleanRequest`, which finds the request
    arguments a server ignores by sending one leave-one-out request per
    argument and comparing responses; the counters and shutdown decision of
    `StressTest`; the checks of `Seed`.

    A url is kept as its parsed parts: the query pairs, and the rest (scheme,
    host, path, params, fragment) as one opaque string that `urlunparse`
    puts back unchanged. The server is an oracle from request to the
    fingerprint `ensure_response` makes of its response (None for a failed or
    falsy response). */
module Crawlers {

  import opened PyValues
  import opened Dicts

  // ------------------------------------------------------------ requests

  type Pair = (string, string)

  datatype Url = Url(rest: string, qsl: seq<Pair>)

  /** `request['data']`: absent, a form dict, bytes holding a JSON object
      (kept as the object: `json.loads(json.dumps(o)) == o`), or other bytes. */
  datatype Data =
    | NoData
    | FormData(form: Dict<Value>)
    | JsonData(obj: Dict<Value>)
    | RawData(bytes: seq<byte>)

  /** `bool(data)`; the bytes of a JSON object are never empty. */
  predicate DataTruthy(d: Data) {
    match d
    case NoData => false
    case FormData(f) => f != []
    case JsonData(_) => true
    case RawData(b) => b != []
  }

  /** The request dict: its url, method, `headers` (None when the key is
      absent; header names are title-cased already) and `data`. */
  datatype Request = Request(url: Url, verb: string, headers: Option<Dict<string>>, data: Data)

  /** The server's answer to a request, through `ensure_response`. */
  type Server = Request -> Option<string>

  /** `SimpleCookie(text)`: the cookie's morsels, name and value. */
  type CookieParser = string -> seq<Pair>

  /** `'; '.join(m.OutputString() for m in morsels)`. */
  function RenderCookies(ms: seq<Pair>): string {
    Join(seq(|ms|, i requires 0 <= i < |ms| => ms[i].0 + "=" + ms[i].1), "; ")
  }

  /** `d` without the entries for `k`: what a deep copy holds after
      `copy.pop(k)`, since the keys of a dict are distinct (see WithoutIsPop). */
  function Without<V>(d: Dict<V>, k: string): Dict<V> {
    if d == [] then []
    else (if d[0].0 == k then [] else [d[0]]) + Without(d[1..], k)
  }

  /** A missing key leaves the dict as it is. */
  lemma {:induction false} WithoutMissing<V>(d: Dict<V>, k: string)
    requires !HasKey(d, k)
    ensures Without(d, k) == d
    decreases |d|
  {
    if d != [] {
      KeysCons(d);
      WithoutMissing(d[1..], k);
      assert d == [d[0]] + d[1..];
    }
  }

  /** On a dict, removing the entries for `k` is `pop(k)`: the dict without
      k when it is there, unchanged (pop's KeyError aside) when it is not. */
  lemma {:induction false} WithoutIsPop<V>(d: Dict<V>, k: string)
    requires WellFormed(d)
    ensures HasKey(d, k) ==> Pop(d, k).Ok? && Without(d, k) == Pop(d, k).value.1
    ensures !HasKey(d, k) ==> Without(d, k) == d
    decreases |d|
  {
    if !HasKey(d, k) {
      WithoutMissing(d, k);
    } else {
      KeysCons(d);
      var rest := d[1..];
      assert WellFormed(rest) by {
        forall i, j | 0 <= i < j < |rest| ensures rest[i].0 != rest[j].0 {
          assert rest[i] == d[i + 1] && rest[j] == d[j + 1];
        }
      }
      if d[0].0 == k {
        assert !HasKey(rest, k) by {
          forall j | 0 <= j < |rest| ensures Keys(rest)[j] != k {
            assert rest[j] == d[j + 1];
          }
        }
        WithoutMissing(rest, k);
      } else {
        WithoutIsPop(rest, k);
      }
    }
  }

  /** The key is gone and every other key keeps its value. */
  lemma WithoutSpec<V>(d: Dict<V>, k: string)
    requires WellFormed(d)
    ensures !HasKey(Without(d, k), k)
    ensures forall k' :: k' != k ==> Get(Without(d, k), k') == Get(d, k')
  {
    WithoutIsPop(d, k);
  }

  // --------------------------------------------------------------- tasks

  /** One leave-one-out request and the argument it leaves out; the
      constructor is the `ignore` list the argument joins when the server
      does not notice. */
  datatype Task =
    | QslTask(pair: Pair, request: Request)
    | TotalDataTask(data: Data, request: Request)
    | FormDataTask(key: string, request: Request)
    | JsonDataTask(key: string, request: Request)
    | CookieTask(key: string, request: Request)
    | HeaderTask(key: string, request: Request)

  /** `clean_url`'s tasks: for each query pair, the url without that one
      occurrence. */
  function UrlTasks(r: Request): seq<Task> {
    var q := r.url.qsl;
    seq(|q|, j requires 0 <= j < |q| => QslTask(q[j], UrlCandidate(r, j)))
  }

  /** The request with query pair j left out. */
  function UrlCandidate(r: Request, j: nat): Request
    requires j < |r.url.qsl|
  {
    r.(url := r.url.(qsl := r.url.qsl[..j] + r.url.qsl[j + 1..]))
  }

  /** Each url candidate keeps every other pair, in order, and drops exactly
      the one occurrence it names; the rest of the request is unchanged. */
  lemma UrlTaskDropsOne(r: Request, j: nat)
    requires j < |r.url.qsl|
    ensures var t := UrlTasks(r)[j]; var q := r.url.qsl;
      && t.pair == q[j]
      && |t.request.url.qsl| == |q| - 1
      && multiset(t.request.url.qsl) + multiset{q[j]} == multiset(q)
      && (forall i :: 0 <= i < j ==> t.request.url.qsl[i] == q[i])
      && (forall i :: j <= i < |q| - 1 ==> t.request.url.qsl[i] == q[i + 1])
      && t.request.(url := r.url) == r
  {
    var q := r.url.qsl;
    assert q == q[..j] + [q[j]] + q[j + 1..];
  }

  /** The form-key tasks of `clean_post_data`. */
  function FormTasks(r: Request, f: Dict<Value>): seq<Task> {
    seq(|f|, j requires 0 <= j < |f| => FormDataTask(f[j].0, FormCandidate(r, f, f[j].0)))
  }

  /** The request whose form lacks key `k`. */
  function FormCandidate(r: Request, f: Dict<Value>, k: string): Request {
    r.(data := FormData(Without(f, k)))
  }

  /** The JSON-key tasks of `clean_post_data`. */
  function JsonTasks(r: Request, o: Dict<Value>): seq<Task> {
    seq(|o|, j requires 0 <= j < |o| => JsonDataTask(o[j].0, JsonCandidate(r, o, o[j].0)))
  }

  /** The request whose JSON object lacks key `k`. */
  function JsonCandidate(r: Request, o: Dict<Value>, k: string): Request {
    r.(data := JsonData(Without(o, k)))
  }

  /** Whether `clean_post_data` looks at the data at all. */
  predicate CleansData(r: Request) {
    DataTruthy(r.data) && r.verb == "post"
  }

  /** `clean_post_data`'s tasks: the request without its data, then one per
      form or JSON key with that key removed; bytes that are not JSON give
      nothing more. */
  function DataTasks(r: Request): seq<Task> {
    if !CleansData(r) then []
    else
      [TotalDataTask(r.data, r.(data := NoData))] +
      match r.data
      case FormData(f) => FormTasks(r, f)
      case JsonData(o) => JsonTasks(r, o)
      case _ => []
  }

  /** No tasks unless the request posts truthy data; otherwise the request
      without data comes first, followed by the per-key tasks of a form or
      JSON body, and nothing more for other bytes. */
  lemma DataTasksShape(r: Request)
    ensures var ts := DataTasks(r);
      && (!CleansData(r) ==> ts == [])
      && (CleansData(r) ==> ts != [] && ts[0] == TotalDataTask(r.data, r.(data := NoData)))
      && (CleansData(r) && r.data.FormData? ==> ts[1..] == FormTasks(r, r.data.form))
      && (CleansData(r) && r.data.JsonData? ==> ts[1..] == JsonTasks(r, r.data.obj))
      && (CleansData(r) && r.data.RawData? ==> |ts| == 1)
  {
  }

  /** Each form (or JSON) candidate lacks exactly its key. */
  lemma FormTaskDropsKey(r: Request, j: nat)
    requires r.data.FormData? && WellFormed(r.data.form) && j < |r.data.form|
    ensures var t := FormTasks(r, r.data.form)[j]; var f := r.data.form;
      && t.key == f[j].0 && t.request.data.FormData?
      && !HasKey(t.request.data.form, f[j].0)
      && (forall k :: k != f[j].0 ==> Get(t.request.data.form, k) == Get(f, k))
      && t.request.(data := r.data) == r
  {
    WithoutSpec(r.data.form, r.data.form[j].0);
  }

  /** `clean_cookie`'s tasks: for each morsel, the Cookie header rebuilt
      from the morsels that differ from it. */
  function CookieTasks(r: Request, h: Dict<string>, ms: seq<Pair>): seq<Task> {
    seq(|ms|, j requires 0 <= j < |ms| => CookieTask(ms[j].0, CookieCandidate(r, h, ms, ms[j])))
  }

  /** The request whose Cookie header lacks morsel `m`. */
  function CookieCandidate(r: Request, h: Dict<string>, ms: seq<Pair>, m: Pair): Request {
    r.(headers := Some(Set(h, "Cookie", RenderCookies(Others(ms, m)))))
  }

  /** `[i for i in morsels if i != m]`. */
  function Others(ms: seq<Pair>, m: Pair): (r: seq<Pair>)
    ensures m !in r
    ensures forall p :: p in r <==> p in ms && p != m
  {
    if ms == [] then []
    else (if ms[0] == m then [] else [ms[0]]) + Others(ms[1..], m)
  }

  /** `clean_headers`'s own tasks, from header i on: every header but
      Cookie, each removed in turn. */
  function HeaderTasksFrom(r: Request, h: Dict<string>, i: nat): seq<Task>
    requires i <= |h|
    decreases |h| - i
  {
    if i == |h| then []
    else
      (if h[i].0 == "Cookie" then [] else [HeaderTask(h[i].0, HeaderCandidate(r, h, h[i].0))])
      + HeaderTasksFrom(r, h, i + 1)
  }

  /** At most one task per header, each removing a header other than
      Cookie. */
  lemma {:induction false} HeaderTasksShape(r: Request, h: Dict<string>, i: nat)
    requires i <= |h|
    ensures var ts := HeaderTasksFrom(r, h, i);
      && |ts| <= |h| - i
      && forall t :: t in ts ==> t.HeaderTask? && t.key != "Cookie"
    decreases |h| - i
  {
    if i < |h| {
      HeaderTasksShape(r, h, i + 1);
    }
  }

  /** The request without header `k`. */
  function HeaderCandidate(r: Request, h: Dict<string>, k: string): Request {
    r.(headers := Some(Without(h, k)))
  }

  /** With no Cookie header, every header gets its leave-one-out task. */
  lemma {:induction false} HeaderTaskCount(r: Request, h: Dict<string>, i: nat)
    requires i <= |h|
    requires forall j :: i <= j < |h| ==> h[j].0 != "Cookie"
    ensures |HeaderTasksFrom(r, h, i)| == |h| - i
    ensures forall k :: 0 <= k < |h| - i ==> HeaderTasksFrom(r, h, i)[k] == HeaderTask(h[i + k].0, HeaderCandidate(r, h, h[i + k].0))
    decreases |h| - i
  {
    if i < |h| {
      HeaderTaskCount(r, h, i + 1);
      var rest := HeaderTasksFrom(r, h, i + 1);
      var ts := HeaderTasksFrom(r, h, i);
      assert ts == [HeaderTask(h[i].0, HeaderCandidate(r, h, h[i].0))] + rest;
      forall k | 1 <= k < |h| - i ensures ts[k] == HeaderTask(h[i + k].0, HeaderCandidate(r, h, h[i + k].0)) {
        assert ts[k] == rest[k - 1];
        assert i + k == (i + 1) + (k - 1);
      }
    }
  }

  /** All of `clean_headers`: the cookie tasks first (when the header is
      there and the cookie was found necessary), then the other headers. */
  function HeadersPart(r: Request, necessary: bool, parse: CookieParser): seq<Task> {
    if r.headers.None? then []
    else CookiePart(r, necessary, parse) + HeaderTasksFrom(r, r.headers.value, 0)
  }

  /** The cookie tasks of `clean_headers`. */
  function CookiePart(r: Request, necessary: bool, parse: CookieParser): seq<Task>
    requires r.headers.Some?
  {
    var h := r.headers.value;
    if HasKey(h, "Cookie") && necessary then CookieTasks(r, h, parse(Get(h, "Cookie").value)) else []
  }

  /** `clean_all`: url, then data, then headers. */
  function AllTasks(r: Request, necessary: bool, parse: CookieParser): seq<Task> {
    UrlTasks(r) + DataTasks(r) + HeadersPart(r, necessary, parse)
  }

  // -------------------------------------------------------------- ignore

  /** `self.ignore`: the arguments found not to matter, per kind. */
  datatype Ignore = Ignore(
    qsl: seq<Pair>, cookie: seq<string>, headers: seq<string>,
    jsonData: seq<string>, formData: seq<string>, totalData: seq<Data>)

  function EmptyIgnore(): Ignore {
    Ignore([], [], [], [], [], [])
  }

  /** `self.ignore[key].append(value)` for a task. */
  function AddIgnore(ig: Ignore, t: Task): Ignore {
    match t
    case QslTask(p, _) => ig.(qsl := ig.qsl + [p])
    case TotalDataTask(d, _) => ig.(totalData := ig.totalData + [d])
    case FormDataTask(k, _) => ig.(formData := ig.formData + [k])
    case JsonDataTask(k, _) => ig.(jsonData := ig.jsonData + [k])
    case CookieTask(k, _) => ig.(cookie := ig.cookie + [k])
    case HeaderTask(k, _) => ig.(headers := ig.headers + [k])
  }

  /** The task's argument is listed in its own `ignore` list. */
  predicate Listed(ig: Ignore, t: Task) {
    match t
    case QslTask(p, _) => p in ig.qsl
    case TotalDataTask(d, _) => d in ig.totalData
    case FormDataTask(k, _) => k in ig.formData
    case JsonDataTask(k, _) => k in ig.jsonData
    case CookieTask(k, _) => k in ig.cookie
    case HeaderTask(k, _) => k in ig.headers
  }

  function Size(ig: Ignore): nat {
    |ig.qsl| + |ig.cookie| + |ig.headers| + |ig.jsonData| + |ig.formData| + |ig.totalData|
  }

  lemma AddIgnoreSpec(ig: Ignore, t: Task, u: Task)
    ensures Listed(AddIgnore(ig, t), t)
    ensures Listed(ig, u) ==> Listed(AddIgnore(ig, t), u)
    ensures Size(AddIgnore(ig, t)) == Size(ig) + 1
  {
  }

  /** `fut.x and fut.cx`: the request succeeded and its response looks like
      the original one. */
  predicate Unchanged(server: Server, original: string, t: Task) {
    server(t.request) == Some(original)
  }

  /** The `ignore` lists after `result()`'s loop over tasks i.. . */
  function KeepFrom(ig: Ignore, ts: seq<Task>, server: Server, original: string, i: nat): Ignore
    requires i <= |ts|
    decreases |ts| - i
  {
    if i == |ts| then ig
    else KeepFrom(if Unchanged(server, original, ts[i]) then AddIgnore(ig, ts[i]) else ig, ts, server, original, i + 1)
  }

  function CountUnchanged(ts: seq<Task>, server: Server, original: string, i: nat): nat
    requires i <= |ts|
    decreases |ts| - i
  {
    if i == |ts| then 0
    else (if Unchanged(server, original, ts[i]) then 1 else 0) + CountUnchanged(ts, server, original, i + 1)
  }

  /** Exactly the tasks whose response was unchanged are recorded: each of
      them is listed afterwards, nothing listed before is lost, and the lists
      grow by one entry per such task and no more. */
  lemma {:induction false} KeepSpec(ig: Ignore, ts: seq<Task>, server: Server, original: string, i: nat)
    requires i <= |ts|
    ensures var r := KeepFrom(ig, ts, server, original, i);
      && (forall j :: i <= j < |ts| && Unchanged(server, original, ts[j]) ==> Listed(r, ts[j]))
      && (forall u :: Listed(ig, u) ==> Listed(r, u))
      && Size(r) == Size(ig) + CountUnchanged(ts, server, original, i)
    decreases |ts| - i
  {
    if i < |ts| {
      var next := if Unchanged(server, original, ts[i]) then AddIgnore(ig, ts[i]) else ig;
      forall u | Listed(ig, u) ensures Listed(next, u) {
        AddIgnoreSpec(ig, ts[i], u);
      }
      AddIgnoreSpec(ig, ts[i], ts[i]);
      KeepSpec(next, ts, server, original, i + 1);
    }
  }

  // ------------------------------------------------------ the new request

  /** `[i for i in qsl if i not in ignore['qsl']]`: every copy of an
      ignored pair goes. */
  function FilterOut(q: seq<Pair>, bad: seq<Pair>): (r: seq<Pair>)
    ensures forall p :: p in r <==> p in q && p !in bad
  {
    if q == [] then []
    else (if q[0] in bad then [] else [q[0]]) + FilterOut(q[1..], bad)
  }

  /** `for key in keys: d.pop(key)`: the dict reached and the KeyError
      that stopped the loop, if any. */
  function PopAll<V>(d: Dict<V>, keys: seq<string>): (Dict<V>, Option<Exc>)
    decreases |keys|
  {
    if keys == [] then (d, None)
    else
      match Pop(d, keys[0])
      case Err(e) => (d, Some(e))
      case Ok(p) => PopAll(p.1, keys[1..])
  }

  /** A pop keeps a dict's keys distinct. */
  lemma {:induction false} PopWellFormed<V>(d: Dict<V>, k: string)
    requires WellFormed(d) && Pop(d, k).Ok?
    ensures WellFormed(Pop(d, k).value.1)
    decreases |d|
  {
    if d[0].0 != k {
      var rest := Pop(d[1..], k).value.1;
      PopWellFormed(d[1..], k);
      assert !HasKey(d[1..], d[0].0);
      assert Get(rest, d[0].0) == Get(d[1..], d[0].0);
      KeysCons([d[0]] + rest);
      assert [d[0]] + rest == Pop(d, k).value.1;
    }
  }

  /** A pop loop stops only on a KeyError, and keeps every key it was
      not asked to pop. */
  lemma {:induction false} PopAllFrame<V>(d: Dict<V>, keys: seq<string>)
    ensures var (r, err) := PopAll(d, keys);
      && (err.Some? ==> err.value.cls == "KeyError")
      && (err.None? ==> forall k :: k !in keys ==> Get(r, k) == Get(d, k))
    decreases |keys|
  {
    if keys != [] && Pop(d, keys[0]).Ok? {
      PopAllFrame(Pop(d, keys[0]).value.1, keys[1..]);
    }
  }

  /** When every pop succeeds on a dict with distinct keys, the popped keys
      are gone. */
  lemma {:induction false} PopAllGone<V>(d: Dict<V>, keys: seq<string>)
    requires WellFormed(d)
    ensures var (r, err) := PopAll(d, keys);
      err.None? ==> WellFormed(r) && forall i :: 0 <= i < |keys| ==> !HasKey(r, keys[i])
    decreases |keys|
  {
    if keys != [] && Pop(d, keys[0]).Ok? {
      var rest := Pop(d, keys[0]).value.1;
      PopWellFormed(d, keys[0]);
      PopAllGone(rest, keys[1..]);
      PopAllFrame(rest, keys[1..]);
      var (r, err) := PopAll(rest, keys[1..]);
      if err.None? {
        forall i | 0 <= i < |keys| ensures !HasKey(r, keys[i]) {
          if i > 0 {
            assert keys[i] == keys[1..][i - 1];
          } else if keys[0] !in keys[1..] {
            assert Get(r, keys[0]) == Get(rest, keys[0]);
          } else {
            var j :| 0 <= j < |keys[1..]| && keys[1..][j] == keys[0];
          }
        }
      }
    }
  }

  /** The loop `for key in keys: d.pop(key)`. */
  method PopKeys<V>(d: Dict<V>, keys: seq<string>) returns (out: Dict<V>, err: Option<Exc>)
    ensures (out, err) == PopAll(d, keys)
  {
    out := d;
    var i := 0;
    while i < |keys|
      invariant i <= |keys|
      invariant PopAll(d, keys) == PopAll(out, keys[i..])
    {
      assert keys[i..][1..] == keys[i + 1..];
      var p := Pop(out, keys[i]);
      if p.Err? {
        return out, Some(p.error);
      }
      out := p.value.1;
      i := i + 1;
    }
    err := None;
  }

  /** The url with the ignored pairs removed; then the ignored headers
      popped (a KeyError when one is missing), and the headers dropped when
      none are left. */
  function ResetHeaders(r: Request, ig: Ignore): (res: (Request, Option<Exc>))
    ensures res.0.url == r.url.(qsl := FilterOut(r.url.qsl, ig.qsl)) && res.0.verb == r.verb && res.0.data == r.data
    ensures res.1.None? && res.0.headers.Some? ==> res.0.headers.value != []
  {
    var r1 := r.(url := r.url.(qsl := FilterOut(r.url.qsl, ig.qsl)));
    if ig.headers != [] && r1.headers.None? then (r1, Some(Builtin("KeyError", "headers")))
    else
      var (h, err) := if ig.headers == [] then (r1.headers, None) else
        var (h1, e1) := PopAll(r1.headers.value, ig.headers); (Some(h1), e1);
      var r2 := r1.(headers := h);
      if err.Some? then (r2, err)
      else if r2.headers.None? || r2.headers.value == [] then (r2.(headers := None), None)
      else (r2, None)
  }

  /** The Cookie header rebuilt without the ignored cookies, unless the
      whole header was ignored. */
  function ResetCookie(r: Request, ig: Ignore, parse: CookieParser): (res: (Request, Option<Exc>))
    ensures res.0.url == r.url && res.0.verb == r.verb && res.0.data == r.data
    ensures res.1.None? ==> (res.0.headers.Some? <==> r.headers.Some?)
    ensures res.1.None? && r.headers.Some? && r.headers.value != [] ==> res.0.headers.value != []
    ensures res.1.None? && r.headers.Some? ==> forall k :: k != "Cookie" ==> Get(res.0.headers.value, k) == Get(r.headers.value, k)
    // Nothing to do unless some cookie is ignored and the header itself is not.
    ensures ig.cookie == [] || "Cookie" in ig.headers ==> res == (r, None)
    ensures ig.cookie != [] && "Cookie" !in ig.headers && r.headers.None? ==> res.1 == Some(Builtin("KeyError", "headers"))
    ensures r.headers.Some? && !HasKey(r.headers.value, "Cookie") ==> res == (r, None)
    // The header is rebuilt from the morsels whose names are not ignored.
    ensures ig.cookie != [] && "Cookie" !in ig.headers && r.headers.Some? && HasKey(r.headers.value, "Cookie") ==>
              && res.1.None? && res.0.headers.Some?
              && Get(res.0.headers.value, "Cookie") ==
                   Some(RenderCookies(KeepCookies(parse(Get(r.headers.value, "Cookie").value), ig.cookie)))
  {
    if ig.cookie == [] || "Cookie" in ig.headers then (r, None)
    else if r.headers.None? then (r, Some(Builtin("KeyError", "headers")))
    else
      var h := r.headers.value;
      if !HasKey(h, "Cookie") then (r, None)
      else
        var kept := KeepCookies(parse(Get(h, "Cookie").value), ig.cookie);
        (r.(headers := Some(Set(h, "Cookie", RenderCookies(kept)))), None)
  }

  /** The morsels whose name is not ignored. */
  function KeepCookies(ms: seq<Pair>, ignored: seq<string>): (r: seq<Pair>)
    ensures forall p :: p in r <==> p in ms && p.0 !in ignored
  {
    if ms == [] then []
    else (if ms[0].0 in ignored then [] else [ms[0]]) + KeepCookies(ms[1..], ignored)
  }

  /** For a post request with data: ignored form keys popped, the data
      dropped when the form is empty or the whole data was ignored, and the
      ignored JSON keys popped from a JSON body. */
  function ResetData(r: Request, ig: Ignore, hasJsonData: bool): (res: (Request, Option<Exc>))
    ensures res.0.url == r.url && res.0.verb == r.verb && res.0.headers == r.headers
    ensures r.verb != "post" ==> res == (r, None)
    ensures r.verb == "post" && !DataTruthy(r.data) ==> res == (r, None)
    ensures res.1.None? && r.verb == "post" && DataTruthy(r.data) && ig.totalData != [] ==> res.0.data == NoData
    // A form: the ignored keys are popped, a missing one is a KeyError, and
    // a form left empty is dropped.
    ensures r.verb == "post" && r.data.FormData? && r.data.form != [] ==>
              var (f, e) := PopAll(r.data.form, ig.formData);
              && (e.Some? ==> res == (r.(data := FormData(f)), e))
              && (e.None? && f == [] ==> res == (r.(data := NoData), None))
              && (e.None? && f != [] && ig.totalData == [] ==> res == (r.(data := FormData(f)), None))
    // A JSON body loses its ignored keys when `has_json_data` is set.
    ensures r.verb == "post" && r.data.JsonData? && ig.totalData == [] && hasJsonData ==>
              var (o, e) := PopAll(r.data.obj, ig.jsonData);
              res == (if e.Some? then (r, e) else (r.(data := JsonData(o)), None))
    ensures r.verb == "post" && (r.data.RawData? || (r.data.JsonData? && !hasJsonData)) && ig.totalData == [] ==> res == (r, None)
  {
    if r.verb != "post" || !DataTruthy(r.data) then (r, None)
    else
      var (d, err) := if r.data.FormData? then
          var (f, e) := PopAll(r.data.form, ig.formData); (FormData(f), e)
        else (r.data, None);
      if err.Some? then (r.(data := d), err)
      else
        var d2 := if !DataTruthy(d) || ig.totalData != [] then NoData else d;
        if hasJsonData && d2.JsonData? then
          var (o, e) := PopAll(d2.obj, ig.jsonData);
          if e.Some? then (r.(data := d2), e) else (r.(data := JsonData(o)), None)
        else (r.(data := d2), None)
  }

  /** `reset_new_request`, the steps in order: the request reached (also
      where an error stopped it) and the error, if any. */
  function ResetSpec(r: Request, ig: Ignore, hasJsonData: bool, parse: CookieParser): (res: (Request, Option<Exc>))
    ensures forall p :: p in res.0.url.qsl <==> p in r.url.qsl && p !in ig.qsl
    ensures res.0.url.rest == r.url.rest && res.0.verb == r.verb
    ensures r.verb != "post" ==> res.0.data == r.data
    ensures res.1.None? && res.0.headers.Some? ==> res.0.headers.value != []
  {
    var (r1, e1) := ResetHeaders(r, ig);
    if e1.Some? then (r1, e1)
    else
      var (r2, e2) := ResetCookie(r1, ig, parse);
      if e2.Some? then (r2, e2)
      else ResetData(r2, ig, hasJsonData)
  }

  /** Popping the ignored headers leaves none of them. */
  lemma ResetHeadersGone(r: Request, ig: Ignore)
    requires r.headers.Some? ==> WellFormed(r.headers.value)
    ensures var (n, err) := ResetHeaders(r, ig);
      err.None? && n.headers.Some? ==> forall i :: 0 <= i < |ig.headers| ==> !HasKey(n.headers.value, ig.headers[i])
  {
    if ig.headers != [] && r.headers.Some? {
      PopAllGone(r.headers.value, ig.headers);
      var (h1, e1) := PopAll(r.headers.value, ig.headers);
      var (n, err) := ResetHeaders(r, ig);
      if err.None? && n.headers.Some? {
        assert e1.None? && n.headers.value == h1;
      }
    }
  }

  /** No ignored header survives a reset that went through. */
  lemma ResetDropsHeaders(r: Request, ig: Ignore, hasJsonData: bool, parse: CookieParser)
    requires r.headers.Some? ==> WellFormed(r.headers.value)
    ensures var (n, err) := ResetSpec(r, ig, hasJsonData, parse);
      err.None? && n.headers.Some? ==> forall i :: 0 <= i < |ig.headers| ==> !HasKey(n.headers.value, ig.headers[i])
  {
    ResetHeadersGone(r, ig);
    var (r1, e1) := ResetHeaders(r, ig);
    if e1.None? {
      var (r2, e2) := ResetCookie(r1, ig, parse);
      if e2.None? && r2.headers.Some? {
        forall i | 0 <= i < |ig.headers| ensures !HasKey(r2.headers.value, ig.headers[i]) {
          if ig.headers[i] != "Cookie" {
            assert Get(r2.headers.value, ig.headers[i]) == Get(r1.headers.value, ig.headers[i]);
          } else {
            assert r2 == r1;
          }
        }
        var (r3, e3) := ResetData(r2, ig, hasJsonData);
        assert r3.headers == r2.headers;
      }
    }
  }

  /** The url and header steps leave a post's data as it was, so the data
      step sees the original body. */
  lemma ResetReachesData(r: Request, ig: Ignore, hasJsonData: bool, parse: CookieParser)
    ensures var (r1, e1) := ResetHeaders(r, ig);
      e1.None? ==>
        var (r2, e2) := ResetCookie(r1, ig, parse);
        && r2.verb == r.verb && r2.data == r.data
        && (e2.None? ==> ResetSpec(r, ig, hasJsonData, parse) == ResetData(r2, ig, hasJsonData))
  {
  }

  /** For a post with a form or a JSON body: once the whole data was ignored
      there is no data; a form that the pops empty is dropped, and otherwise
      loses every ignored key; a JSON body loses every ignored key. */
  lemma ResetDropsData(r: Request, ig: Ignore, hasJsonData: bool, parse: CookieParser)
    requires r.verb == "post"
    requires r.data.FormData? ==> WellFormed(r.data.form)
    requires r.data.JsonData? ==> WellFormed(r.data.obj)
    ensures var (n, err) := ResetSpec(r, ig, hasJsonData, parse);
      && (err.None? && DataTruthy(r.data) && ig.totalData != [] ==> n.data == NoData)
      && (err.None? && r.data.FormData? && r.data.form != [] && PopAll(r.data.form, ig.formData).0 == [] ==> n.data == NoData)
      && (err.None? && r.data.FormData? && r.data.form != [] ==>
            || n.data == NoData
            || (n.data.FormData? && n.data.form != [] && forall i :: 0 <= i < |ig.formData| ==> !HasKey(n.data.form, ig.formData[i])))
      && (err.None? && r.data.JsonData? && hasJsonData && ig.totalData == [] ==>
            n.data.JsonData? && forall i :: 0 <= i < |ig.jsonData| ==> !HasKey(n.data.obj, ig.jsonData[i]))
  {
    ResetReachesData(r, ig, hasJsonData, parse);
    var (r1, e1) := ResetHeaders(r, ig);
    if e1.None? {
      var (r2, e2) := ResetCookie(r1, ig, parse);
      if e2.None? {
        ResetDataGone(r2, ig, hasJsonData);
      }
    }
  }

  /** The data step alone. */
  lemma ResetDataGone(r: Request, ig: Ignore, hasJsonData: bool)
    requires r.verb == "post"
    requires r.data.FormData? ==> WellFormed(r.data.form)
    requires r.data.JsonData? ==> WellFormed(r.data.obj)
    ensures var (n, err) := ResetData(r, ig, hasJsonData);
      && (err.None? && DataTruthy(r.data) && ig.totalData != [] ==> n.data == NoData)
      && (err.None? && r.data.FormData? && r.data.form != [] && PopAll(r.data.form, ig.formData).0 == [] ==> n.data == NoData)
      && (err.None? && r.data.FormData? && r.data.form != [] ==>
            || n.data == NoData
            || (n.data.FormData? && n.data.form != [] && forall i :: 0 <= i < |ig.formData| ==> !HasKey(n.data.form, ig.formData[i])))
      && (err.None? && r.data.JsonData? && hasJsonData && ig.totalData == [] ==>
            n.data.JsonData? && forall i :: 0 <= i < |ig.jsonData| ==> !HasKey(n.data.obj, ig.jsonData[i]))
  {
    var (n, err) := ResetData(r, ig, hasJsonData);
    if r.data.FormData? && r.data.form != [] {
      PopAllGone(r.data.form, ig.formData);
      var (f, e) := PopAll(r.data.form, ig.formData);
      if err.None? && f != [] && ig.totalData == [] {
        assert n.data == FormData(f);
      }
    } else if r.data.JsonData? && hasJsonData && ig.totalData == [] {
      PopAllGone(r.data.obj, ig.jsonData);
      var (o, e) := PopAll(r.data.obj, ig.jsonData);
      if err.None? {
        assert n.data == JsonData(o);
      }
    }
  }

  /** After a reset that went through, the Cookie header holds exactly the
      morsels whose names are not ignored, unless the whole header was. */
  lemma ResetDropsCookies(r: Request, ig: Ignore, hasJsonData: bool, parse: CookieParser)
    requires ig.cookie != [] && "Cookie" !in ig.headers
    requires r.headers.Some? && HasKey(r.headers.value, "Cookie")
    ensures var (n, err) := ResetSpec(r, ig, hasJsonData, parse);
      err.None? ==>
        && n.headers.Some?
        && Get(n.headers.value, "Cookie") == Some(RenderCookies(KeepCookies(parse(Get(r.headers.value, "Cookie").value), ig.cookie)))
  {
    ResetReachesData(r, ig, hasJsonData, parse);
    var (r1, e1) := ResetHeaders(r, ig);
    if e1.None? {
      CookieSurvivesHeaders(r, ig);
      var (r2, e2) := ResetCookie(r1, ig, parse);
      if e2.None? {
        var (r3, e3) := ResetData(r2, ig, hasJsonData);
        assert r3.headers == r2.headers;
      }
    }
  }

  /** Popping the ignored headers keeps a Cookie header that is not among
      them. */
  lemma CookieSurvivesHeaders(r: Request, ig: Ignore)
    requires "Cookie" !in ig.headers
    requires r.headers.Some? && HasKey(r.headers.value, "Cookie")
    ensures var (r1, e1) := ResetHeaders(r, ig);
      e1.None? ==> r1.headers.Some? && Get(r1.headers.value, "Cookie") == Get(r.headers.value, "Cookie")
  {
    var h := r.headers.value;
    var (r1, e1) := ResetHeaders(r, ig);
    if ig.headers == [] {
      assert h != [];
      assert r1.headers == r.headers;
    } else {
      var (h1, e) := PopAll(h, ig.headers);
      PopAllFrame(h, ig.headers);
      if e1.None? {
        assert e.None? && Get(h1, "Cookie") == Get(h, "Cookie");
        assert h1 != [];
        assert r1.headers == Some(h1);
      }
    }
  }

  // ------------------------------------------------------------ the class

  function AssertionError(): Exc {
    Builtin("AssertionError", "original_response should not be failed.")
  }

  /** The request `init_original_response` sends to test the cookie: the
      same with an empty Cookie header. */
  function NoCookieRequest(r: Request): Request
    requires r.headers.Some?
  {
    r.(headers := Some(Set(r.headers.value, "Cookie", "")))
  }

  /** The Cookie header is there and not empty. */
  predicate HasCookie(r: Request) {
    r.headers.Some? && Get(r.headers.value, "Cookie").Some? && Get(r.headers.value, "Cookie").value != ""
  }

  /** The cookie makes no difference: the request without it answers like
      the original. */
  predicate CookieUnneeded(r: Request, server: Server) {
    HasCookie(r) && server(NoCookieRequest(r)) == server(r)
  }

  class CleanRequest {
    /** `self.request`, after a `json` argument became `data`. */
    const request: Request
    /** `self.original_response`. */
    const original: string
    const isCookieNecessary: bool
    /** `self.req.n`, the worker count of the underlying `Requests`. */
    const n: Option<int>
    var tasks: seq<Task>
    var ignore: Ignore
    var hasJsonData: bool
    var newRequest: Request

    constructor Init(request: Request, original: string, cookieUnneeded: bool, n: Option<int>)
      ensures this.request == request && this.original == original && this.n == n
      ensures isCookieNecessary == !cookieUnneeded
      ensures ignore == (if cookieUnneeded then EmptyIgnore().(headers := ["Cookie"]) else EmptyIgnore())
      ensures tasks == [] && !hasJsonData && newRequest == request
    {
      this.request := request;
      this.original := original;
      this.isCookieNecessary := !cookieUnneeded;
      this.n := n;
      this.ignore := if cookieUnneeded then EmptyIgnore().(headers := ["Cookie"]) else EmptyIgnore();
      this.tasks := [];
      this.hasJsonData := false;
      this.newRequest := request;
    }

    /** `CleanRequest(request)`: a `json` argument is sent as data; the
        original request must get a truthy response (AssertionError
        otherwise); a Cookie whose removal changes nothing is ignored from
        the start. */
    static method Create(request: Request, json: Option<Dict<Value>>, n: Option<int>, server: Server) returns (r: Result<CleanRequest>)
      ensures r.Ok? ==> r.value.n == n
      ensures var req := if json.Some? then request.(data := JsonData(json.value)) else request;
        && (server(req).None? ==> r.Err? && r.error.cls == "AssertionError")
        && (server(req).Some? ==>
             (r.Ok? && fresh(r.value) && r.value.request == req && r.value.original == server(req).value
              && r.value.tasks == [] && r.value.newRequest == req && !r.value.hasJsonData
              && (r.value.isCookieNecessary <==> !CookieUnneeded(req, server))
              && r.value.ignore == (if CookieUnneeded(req, server) then EmptyIgnore().(headers := ["Cookie"]) else EmptyIgnore())))
    {
      var req := if json.Some? then request.(data := JsonData(json.value)) else request;
      var first := server(req);
      var noCookie: Option<Option<string>> := None;
      if HasCookie(req) {
        noCookie := Some(server(NoCookieRequest(req)));
      }
      if first.None? {
        return Err(AssertionError());
      }
      var same := noCookie == Some(first);
      var c := new CleanRequest.Init(req, first.value, same, n);
      return Ok(c);
    }

    /** `clean_url`. */
    method CleanUrl()
      modifies this`tasks
      ensures tasks == old(tasks) + UrlTasks(request)
    {
      var q := request.url.qsl;
      var i := 0;
      while i < |q|
        invariant i <= |q|
        invariant tasks == old(tasks) + UrlTasks(request)[..i]
      {
        tasks := tasks + [QslTask(q[i], UrlCandidate(request, i))];
        assert UrlTasks(request)[..i + 1] == UrlTasks(request)[..i] + [UrlTasks(request)[i]];
        i := i + 1;
      }
      assert UrlTasks(request)[..i] == UrlTasks(request);
    }

    /** `clean_post_data`. */
    method CleanPostData()
      modifies this`tasks, this`hasJsonData
      ensures tasks == old(tasks) + DataTasks(request)
      ensures hasJsonData == (old(hasJsonData) || (CleansData(request) && request.data.JsonData?))
    {
      if CleansData(request) {
        ghost var ts := DataTasks(request);
        DataTasksShape(request);
        assert ts == [ts[0]] + ts[1..];
        tasks := tasks + [TotalDataTask(request.data, request.(data := NoData))];
        if request.data.FormData? {
          AddFormTasks(request.data.form);
        } else if request.data.JsonData? {
          AddJsonTasks(request.data.obj);
          hasJsonData := true;
        }
      }
    }

    /** The `for key in data` loop of `clean_post_data` on a form. */
    method AddFormTasks(f: Dict<Value>)
      modifies this`tasks
      ensures tasks == old(tasks) + FormTasks(request, f)
    {
      var r := request;
      var added := [];
      var i := 0;
      while i < |f|
        invariant i <= |f|
        invariant added == FormTasks(r, f)[..i]
      {
        added := added + [FormDataTask(f[i].0, FormCandidate(r, f, f[i].0))];
        assert FormTasks(r, f)[..i + 1] == FormTasks(r, f)[..i] + [FormTasks(r, f)[i]];
        i := i + 1;
      }
      assert FormTasks(r, f)[..i] == FormTasks(r, f);
      tasks := tasks + added;
    }

    /** The `for key in json_data` loop of `clean_post_data`. */
    method AddJsonTasks(o: Dict<Value>)
      modifies this`tasks
      ensures tasks == old(tasks) + JsonTasks(request, o)
    {
      var r := request;
      var added := [];
      var i := 0;
      while i < |o|
        invariant i <= |o|
        invariant added == JsonTasks(r, o)[..i]
      {
        added := added + [JsonDataTask(o[i].0, JsonCandidate(r, o, o[i].0))];
        assert JsonTasks(r, o)[..i + 1] == JsonTasks(r, o)[..i] + [JsonTasks(r, o)[i]];
        i := i + 1;
      }
      assert JsonTasks(r, o)[..i] == JsonTasks(r, o);
      tasks := tasks + added;
    }

    /** `clean_cookie`: nothing when the cookie was found unnecessary; a
        KeyError without a Cookie header. */
    method CleanCookie(parse: CookieParser) returns (r: Result<()>)
      modifies this`tasks
      ensures !isCookieNecessary ==> r.Ok? && tasks == old(tasks)
      ensures isCookieNecessary && (request.headers.None? || !HasKey(request.headers.value, "Cookie")) ==>
        r.Err? && r.error.cls == "KeyError" && tasks == old(tasks)
      ensures isCookieNecessary && request.headers.Some? && HasKey(request.headers.value, "Cookie") ==>
        r.Ok? && tasks == old(tasks) + CookieTasks(request, request.headers.value, parse(Get(request.headers.value, "Cookie").value))
    {
      if !isCookieNecessary {
        return Ok(());
      }
      if request.headers.None? || !HasKey(request.headers.value, "Cookie") {
        return Err(Builtin("KeyError", "Cookie"));
      }
      var h := request.headers.value;
      AddCookieTasks(h, parse(Get(h, "Cookie").value));
      return Ok(());
    }

    /** The `for k, v in cookies.items()` loop of `clean_cookie`. */
    method AddCookieTasks(h: Dict<string>, ms: seq<Pair>)
      modifies this`tasks
      ensures tasks == old(tasks) + CookieTasks(request, h, ms)
    {
      var i := 0;
      while i < |ms|
        invariant i <= |ms|
        invariant tasks == old(tasks) + CookieTasks(request, h, ms)[..i]
      {
        tasks := tasks + [CookieTask(ms[i].0, CookieCandidate(request, h, ms, ms[i]))];
        assert CookieTasks(request, h, ms)[..i + 1] == CookieTasks(request, h, ms)[..i] + [CookieTasks(request, h, ms)[i]];
        i := i + 1;
      }
      assert CookieTasks(request, h, ms)[..i] == CookieTasks(request, h, ms);
    }

    /** `clean_headers`. */
    method CleanHeaders(parse: CookieParser)
      modifies this`tasks
      ensures tasks == old(tasks) + HeadersPart(request, isCookieNecessary, parse)
    {
      if request.headers.None? {
        return;
      }
      var h := request.headers.value;
      ghost var cookies, others := CookiePart(request, isCookieNecessary, parse), HeaderTasksFrom(request, h, 0);
      if HasKey(h, "Cookie") {
        var _ := CleanCookie(parse);
      }
      assert tasks == old(tasks) + cookies;
      AddHeaderTasks(h);
      ConcatAssoc(old(tasks), cookies, others);
    }

    /** The `for key in headers` loop of `clean_headers`. */
    method AddHeaderTasks(h: Dict<string>)
      modifies this`tasks
      ensures tasks == old(tasks) + HeaderTasksFrom(request, h, 0)
    {
      var i := 0;
      while i < |h|
        invariant i <= |h|
        invariant old(tasks) + HeaderTasksFrom(request, h, 0) == tasks + HeaderTasksFrom(request, h, i)
      {
        ghost var rest := HeaderTasksFrom(request, h, i + 1);
        if h[i].0 != "Cookie" {
          var t := HeaderTask(h[i].0, HeaderCandidate(request, h, h[i].0));
          assert HeaderTasksFrom(request, h, i) == [t] + rest;
          ConcatAssoc(tasks, [t], rest);
          tasks := tasks + [t];
        } else {
          assert HeaderTasksFrom(request, h, i) == rest;
        }
        i := i + 1;
      }
    }

    /** `clean_all`. */
    method CleanAll(parse: CookieParser)
      modifies this`tasks, this`hasJsonData
      ensures tasks == old(tasks) + AllTasks(request, isCookieNecessary, parse)
      ensures hasJsonData == (old(hasJsonData) || (CleansData(request) && request.data.JsonData?))
    {
      ghost var u, d, h := UrlTasks(request), DataTasks(request), HeadersPart(request, isCookieNecessary, parse);
      CleanUrl();
      CleanPostData();
      CleanHeaders(parse);
      assert tasks == old(tasks) + u + d + h;
      assert AllTasks(request, isCookieNecessary, parse) == u + d + h;
    }

    /** `reset_new_request`, updating `new_request` in place. */
    method ResetNewRequest(parse: CookieParser) returns (err: Option<Exc>)
      modifies this
      ensures (newRequest, err) == ResetSpec(old(newRequest), ignore, hasJsonData, parse)
      ensures tasks == old(tasks) && ignore == old(ignore) && hasJsonData == old(hasJsonData)
    {
      var r := newRequest;
      r := r.(url := r.url.(qsl := FilterOut(r.url.qsl, ignore.qsl)));
      if ignore.headers != [] {
        if r.headers.None? {
          newRequest := r;
          return Some(Builtin("KeyError", "headers"));
        }
        var h, e := PopKeys(r.headers.value, ignore.headers);
        r := r.(headers := Some(h));
        if e.Some? {
          newRequest := r;
          return e;
        }
      }
      if r.headers.None? || r.headers.value == [] {
        r := r.(headers := None);
      }
      assert (r, None) == ResetHeaders(old(newRequest), ignore);
      var r2, e2 := ResetCookieStep(r, parse);
      if e2.Some? {
        newRequest := r2;
        return e2;
      }
      var r3, e3 := ResetDataStep(r2);
      newRequest := r3;
      return e3;
    }

    method ResetCookieStep(r: Request, parse: CookieParser) returns (out: Request, err: Option<Exc>)
      ensures (out, err) == ResetCookie(r, ignore, parse)
    {
      if ignore.cookie == [] || "Cookie" in ignore.headers {
        return r, None;
      }
      if r.headers.None? {
        return r, Some(Builtin("KeyError", "headers"));
      }
      var h := r.headers.value;
      if !HasKey(h, "Cookie") {
        return r, None;
      }
      var kept := KeepCookies(parse(Get(h, "Cookie").value), ignore.cookie);
      return r.(headers := Some(Set(h, "Cookie", RenderCookies(kept)))), None;
    }

    method ResetDataStep(r: Request) returns (out: Request, err: Option<Exc>)
      ensures (out, err) == ResetData(r, ignore, hasJsonData)
    {
      if r.verb != "post" || !DataTruthy(r.data) {
        return r, None;
      }
      var d := r.data;
      if d.FormData? {
        var f, e := PopKeys(d.form, ignore.formData);
        d := FormData(f);
        if e.Some? {
          return r.(data := d), e;
        }
      }
      if !DataTruthy(d) || ignore.totalData != [] {
        d := NoData;
      }
      if hasJsonData && d.JsonData? {
        var o, e := PopKeys(d.obj, ignore.jsonData);
        if e.Some? {
          return r.(data := d), e;
        }
        d := JsonData(o);
      }
      return r.(data := d), None;
    }

    /** `result()`: the tasks are made by `clean_all` only when there are
        none yet; the cost estimate `interval / n` then fails for a missing
        or zero `n`; otherwise every task whose response came back unchanged
        records its argument in `ignore`, and the new request is rebuilt. */
    method Result(server: Server, parse: CookieParser) returns (err: Option<Exc>)
      modifies this
      ensures tasks == if old(tasks) == [] then AllTasks(request, isCookieNecessary, parse) else old(tasks)
      ensures old(tasks) != [] ==> hasJsonData == old(hasJsonData)
      ensures n.None? ==> err.Some? && err.value.cls == "TypeError"
      ensures n == Some(0) ==> err.Some? && err.value.cls == "ZeroDivisionError"
      ensures n.None? || n == Some(0) ==> ignore == old(ignore) && newRequest == old(newRequest)
      ensures n.Some? && n.value != 0 ==> ignore == KeepFrom(old(ignore), tasks, server, original, 0)
      ensures n.Some? && n.value != 0 ==> (newRequest, err) == ResetSpec(old(newRequest), ignore, hasJsonData, parse)
    {
      if tasks == [] {
        CleanAll(parse);
      }
      if n.None? {
        return Some(Builtin("TypeError", "unsupported operand type(s) for /: 'int' and 'NoneType'"));
      }
      if n.value == 0 {
        return Some(Builtin("ZeroDivisionError", "division by zero"));
      }
      ghost var made := tasks;
      var i := 0;
      while i < |tasks|
        invariant i <= |tasks| && tasks == made
        invariant KeepFrom(old(ignore), tasks, server, original, 0) == KeepFrom(ignore, tasks, server, original, i)
        invariant newRequest == old(newRequest)
        invariant old(tasks) != [] ==> hasJsonData == old(hasJsonData)
      {
        if server(tasks[i].request) == Some(original) {
          ignore := AddIgnore(ignore, tasks[i]);
        }
        i := i + 1;
      }
      err := ResetNewRequest(parse);
    }
  }

  // ---------------------------------------------------------- StressTest

  /** `total_tries or float('inf')`, likewise `total_time`: None is no limit. */
  function Limit(given: Option<int>): (l: Option<int>)
    ensures given.None? || given.value == 0 ==> l.None?
    ensures given.Some? && given.value != 0 ==> l == given
  {
    if given.Some? && given.value != 0 then given else None
  }

  /** `StressTest`: the callback's counters and its shutdown decision;
      `now` is `time.time()` at the callback. */
  class StressTest {
    const original: string
    const startTime: int
    const totalTries: Option<int>
    const totalTime: Option<int>
    const shutdownChanged: bool
    var counter: nat
    var succCounter: nat
    /** How many times the callbacks have called `shutdown`. */
    var shutdowns: nat

    ghost predicate Valid()
      reads this
    {
      succCounter <= counter && shutdowns <= 3 * counter
    }

    constructor (original: string, startTime: int, totalTries: Option<int>, totalTime: Option<int>, shutdownChanged: bool)
      ensures Valid()
      ensures this.original == original && this.startTime == startTime && this.shutdownChanged == shutdownChanged
      ensures this.totalTries == Limit(totalTries) && this.totalTime == Limit(totalTime)
      ensures counter == 0 && succCounter == 0 && shutdowns == 0
    {
      this.original := original;
      this.startTime := startTime;
      this.totalTries := Limit(totalTries);
      this.totalTime := Limit(totalTime);
      this.shutdownChanged := shutdownChanged;
      counter := 0;
      succCounter := 0;
      shutdowns := 0;
    }

    /** The callback `st_callback_wrapper` builds, for a response whose
        fingerprint is `result`: it counts the response, counts it again as
        a success when it matches the original, and calls `shutdown` once
        for each limit reached and once for a changed response when
        `shutdown_changed` is set. */
    method Callback(result: Option<string>, now: int) returns (calls: nat)
      requires Valid()
      modifies this
      ensures Valid()
      ensures counter == old(counter) + 1
      ensures succCounter == old(succCounter) + (if result == Some(original) then 1 else 0)
      ensures calls == (if totalTries.Some? && counter >= totalTries.value then 1 else 0)
                     + (if totalTime.Some? && now - startTime >= totalTime.value then 1 else 0)
                     + (if result != Some(original) && shutdownChanged then 1 else 0)
      ensures shutdowns == old(shutdowns) + calls
    {
      counter := counter + 1;
      var succ := result == Some(original);
      calls := 0;
      if totalTries.Some? && counter >= totalTries.value {
        calls := calls + 1;
      }
      if totalTime.Some? && now - startTime >= totalTime.value {
        calls := calls + 1;
      }
      if succ {
        succCounter := succCounter + 1;
      } else if shutdownChanged {
        calls := calls + 1;
      }
      shutdowns := shutdowns + calls;
    }
  }

  /** With no limits and `shutdown_changed` off, no callback ever shuts the
      test down, and unchanged responses are all successes. */
  method RunUnlimited(original: string, results: seq<Option<string>>) returns (s: StressTest)
    ensures s.counter == |results| && s.shutdowns == 0
    ensures (forall i :: 0 <= i < |results| ==> results[i] == Some(original)) ==> s.succCounter == |results|
  {
    s := new StressTest(original, 0, None, None, false);
    var i := 0;
    while i < |results|
      invariant i <= |results| && s.Valid()
      invariant s.counter == i && s.shutdowns == 0 && s.totalTries.None? && s.totalTime.None? && !s.shutdownChanged
      invariant s.original == original
      invariant (forall j :: 0 <= j < i ==> results[j] == Some(original)) ==> s.succCounter == i
    {
      var _ := s.Callback(results[i], 0);
      i := i + 1;
    }
  }

  // ---------------------------------------------------------------- Seed

  datatype Seed = Seed(name: Value, frequency: Value, request: Value, itemParsers: seq<(Value, Value)>, encoding: Value)

  /** `Seed.__init__`'s checks: the frequency is a number; the item parsers
      a dict whose keys are strings and whose values are lists or tuples. */
  function NewSeed(name: Value, frequency: Value, request: Value, itemParsers: Value, encoding: Value): (r: Result<Seed>)
    ensures r.Ok? <==> ((frequency.VInt? || frequency.VBool?) && itemParsers.VDict?
      && forall i :: 0 <= i < |itemParsers.entries| ==> itemParsers.entries[i].0.VStr? && itemParsers.entries[i].1.VList?)
    ensures r.Err? ==> r.error.cls == "AssertionError"
    ensures r.Ok? ==> r.value == Seed(name, frequency, request, itemParsers.entries, encoding)
  {
    if !(frequency.VInt? || frequency.VBool?) || !itemParsers.VDict? then Err(Builtin("AssertionError", ""))
    else if !ParsersOk(itemParsers.entries) then Err(Builtin("AssertionError", ""))
    else Ok(Seed(name, frequency, request, itemParsers.entries, encoding))
  }

  predicate ParsersOk(es: seq<(Value, Value)>)
    ensures ParsersOk(es) <==> forall i :: 0 <= i < |es| ==> es[i].0.VStr? && es[i].1.VList?
  {
    es == [] || (es[0].0.VStr? && es[0].1.VList? && ParsersOk(es[1..]) && (assert forall i :: 1 <= i < |es| ==> es[i] == es[1..][i - 1]; true))
  }
}
