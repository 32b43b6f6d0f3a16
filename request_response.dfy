/**
 * `RequestResponseHandling`: a `requests` response is recorded as a record
 * of its fields under the handler's keys, one record per response of its
 * `next` chain, and replayed by reading records back for as long as each
 * says that another one follows.
 */
module RequestResponse {
  import opened Base
  import opened SessionRecording

  /** A `requests` response, as far as the record keeps it. `elapsed` is in
      microseconds, `next` is the response the redirect chain continues with. */
  datatype Response = Response(
    statusCode: int,
    content: seq<bv8>,
    encoding: Option<string>,
    reason: string,
    raw: seq<bv8>,
    headers: map<string, string>,
    elapsed: int,
    cookies: map<string, string>,
    next: Option<Response>)

  /** `response.ok`, which is also the truth value of a response. */
  predicate Ok(r: Response) {
    !(400 <= r.statusCode < 600)
  }

  /** `if getattr(response, "next")`: a next response that is there and ok. */
  predicate TruthyNext(r: Response) {
    r.next.Some? && Ok(r.next.value)
  }

  /** The truth value of a record entry, as `if data["_next"]` tests it. */
  predicate TruthyField(x: Field) {
    match x
    case IntField(i) => i != 0
    case BytesField(b) => |b| > 0
    case TextField(s) => s != ""
    case NoneField => false
    case HeadersField(h) => |h| > 0
    case KeysField(k) => |k| > 0
  }

  /** `__response_keys`, copied as they are. */
  const ResponseKeys: seq<string> := ["status_code", "_content", "encoding", "reason"]

  /** `__response_keys_special`, each converted on the way. */
  const SpecialKeys: seq<string> := ["raw", "_next", "headers", "elapsed"]

  /** The entry `_to_dict` writes under `key`; `_next` is the handler's keys
      when there is a next response. */
  function FieldOf(r: Response, storeKeys: seq<PyValue>, key: string): Field {
    if key == "status_code" then IntField(r.statusCode)
    else if key == "_content" then BytesField(r.content)
    else if key == "encoding" then (if r.encoding.Some? then TextField(r.encoding.value) else NoneField)
    else if key == "reason" then TextField(r.reason)
    else if key == "raw" then BytesField(r.raw)
    else if key == "_next" then (if r.next.Some? then KeysField(storeKeys) else NoneField)
    else if key == "headers" then HeadersField(r.headers)
    else IntField(r.elapsed)
  }

  /** The record `_to_dict` builds: one entry per listed key, cookies ignored. */
  function ToRecord(r: Response, storeKeys: seq<PyValue>): map<string, Field> {
    map k | k in ResponseKeys + SpecialKeys :: FieldOf(r, storeKeys, k)
  }

  /** The record has exactly the listed keys, each with its entry. */
  lemma RecordKeys(r: Response, storeKeys: seq<PyValue>)
    ensures forall k :: k in ToRecord(r, storeKeys) <==> k in ResponseKeys || k in SpecialKeys
    ensures forall k :: k in ToRecord(r, storeKeys) ==> ToRecord(r, storeKeys)[k] == FieldOf(r, storeKeys, k)
  {
  }

  /** The response `Response()` starts as; every recorded field is overwritten. */
  const Blank: Response := Response(0, [], None, "", [], map[], 0, map[], None)

  /** `setattr(response, key, data[key])` and its conversions: a missing entry
      is a `KeyError`, an entry of the wrong kind cannot be stored. `_next` is
      left unset here: `read` decides it. */
  function SetField(resp: Response, key: string, data: map<string, Field>): Result<Response, Fault> {
    if key !in data then Failure(KeyError(key))
    else
      var x := data[key];
      if key == "status_code" then (if x.IntField? then Success(resp.(statusCode := x.i)) else Failure(BadField(key)))
      else if key == "_content" then (if x.BytesField? then Success(resp.(content := x.b)) else Failure(BadField(key)))
      else if key == "encoding" then
        (if x.TextField? then Success(resp.(encoding := Some(x.s)))
         else if x.NoneField? then Success(resp.(encoding := None))
         else Failure(BadField(key)))
      else if key == "reason" then (if x.TextField? then Success(resp.(reason := x.s)) else Failure(BadField(key)))
      else if key == "raw" then (if x.BytesField? then Success(resp.(raw := x.b)) else Failure(BadField(key)))
      else if key == "headers" then (if x.HeadersField? then Success(resp.(headers := x.h)) else Failure(BadField(key)))
      else if key == "elapsed" then (if x.IntField? then Success(resp.(elapsed := x.i)) else Failure(BadField(key)))
      else Success(resp)
  }

  /** The fields of `keys` set one after the other, stopping at the first failure. */
  function Assign(resp: Response, data: map<string, Field>, keys: seq<string>): Result<Response, Fault>
    decreases |keys|
  {
    if keys == [] then Success(resp)
    else match Assign(resp, data, keys[..|keys| - 1])
      case Success(r) => SetField(r, keys[|keys| - 1], data)
      case Failure(e) => Failure(e)
  }

  /** `_from_dict`: a fresh response with every listed field set from the record. */
  function FromRecord(data: map<string, Field>): Result<Response, Fault> {
    Assign(Blank, data, ResponseKeys + SpecialKeys)
  }

  /** A response as a replay rebuilds it: no cookies, and the next response
      rebuilt the same way. */
  function Strip(r: Response): Response
    decreases r
  {
    r.(cookies := map[], next := if r.next.Some? then Some(Strip(r.next.value)) else None)
  }

  /** A response as one record rebuilds it, before `read` fills in `next`. */
  function Flat(r: Response): Response {
    r.(cookies := map[], next := None)
  }

  lemma AssignSnoc(resp: Response, data: map<string, Field>, keys: seq<string>, key: string)
    ensures Assign(resp, data, keys + [key]) ==
      match Assign(resp, data, keys)
      case Success(r) => SetField(r, key, data)
      case Failure(e) => Failure(e)
  {
    assert (keys + [key])[..|keys|] == keys;
  }

  /** `_from_dict(_to_dict(r))` keeps every recorded field: status, content,
      encoding, reason, raw body, headers and elapsed time; it drops the
      cookies, and `_next` is the handler's keys exactly when `r` has a next
      response. */
  lemma RecordRoundTrip(r: Response, storeKeys: seq<PyValue>)
    ensures FromRecord(ToRecord(r, storeKeys)) == Success(Flat(r))
    ensures "_next" in ToRecord(r, storeKeys)
    ensures ToRecord(r, storeKeys)["_next"] == if r.next.Some? then KeysField(storeKeys) else NoneField
  {
    var d := ToRecord(r, storeKeys);
    var k1 := ["status_code"];
    var k2 := k1 + ["_content"];
    var k3 := k2 + ["encoding"];
    var k4 := k3 + ["reason"];
    var k5 := k4 + ["raw"];
    var k6 := k5 + ["_next"];
    var k7 := k6 + ["headers"];
    var k8 := k7 + ["elapsed"];
    assert k8 == ResponseKeys + SpecialKeys;
    var s1 := Blank.(statusCode := r.statusCode);
    var s2 := s1.(content := r.content);
    var s3 := s2.(encoding := r.encoding);
    var s4 := s3.(reason := r.reason);
    var s5 := s4.(raw := r.raw);
    var s7 := s5.(headers := r.headers);
    var s8 := s7.(elapsed := r.elapsed);
    AssignSnoc(Blank, d, [], "status_code");
    assert [] + ["status_code"] == k1;
    RestoreStatus(Blank, r, storeKeys);
    AssignSnoc(Blank, d, k1, "_content");
    RestoreContent(s1, r, storeKeys);
    AssignSnoc(Blank, d, k2, "encoding");
    RestoreEncoding(s2, r, storeKeys);
    AssignSnoc(Blank, d, k3, "reason");
    RestoreReason(s3, r, storeKeys);
    AssignSnoc(Blank, d, k4, "raw");
    RestoreRaw(s4, r, storeKeys);
    AssignSnoc(Blank, d, k5, "_next");
    RestoreNext(s5, r, storeKeys);
    AssignSnoc(Blank, d, k6, "headers");
    RestoreHeaders(s5, r, storeKeys);
    AssignSnoc(Blank, d, k7, "elapsed");
    RestoreElapsed(s7, r, storeKeys);
    assert s8 == Flat(r);
    assert d["_next"] == FieldOf(r, storeKeys, "_next");
  }

  // One lemma per recorded field: `SetField` puts back what `FieldOf` wrote.

  lemma RestoreStatus(resp: Response, r: Response, storeKeys: seq<PyValue>)
    ensures SetField(resp, "status_code", ToRecord(r, storeKeys)) == Success(resp.(statusCode := r.statusCode))
  {
    assert ToRecord(r, storeKeys)["status_code"] == FieldOf(r, storeKeys, "status_code");
  }

  lemma RestoreContent(resp: Response, r: Response, storeKeys: seq<PyValue>)
    ensures SetField(resp, "_content", ToRecord(r, storeKeys)) == Success(resp.(content := r.content))
  {
    assert ToRecord(r, storeKeys)["_content"] == FieldOf(r, storeKeys, "_content");
  }

  lemma RestoreEncoding(resp: Response, r: Response, storeKeys: seq<PyValue>)
    ensures SetField(resp, "encoding", ToRecord(r, storeKeys)) == Success(resp.(encoding := r.encoding))
  {
    assert ToRecord(r, storeKeys)["encoding"] == FieldOf(r, storeKeys, "encoding");
  }

  lemma RestoreReason(resp: Response, r: Response, storeKeys: seq<PyValue>)
    ensures SetField(resp, "reason", ToRecord(r, storeKeys)) == Success(resp.(reason := r.reason))
  {
    assert ToRecord(r, storeKeys)["reason"] == FieldOf(r, storeKeys, "reason");
  }

  lemma RestoreRaw(resp: Response, r: Response, storeKeys: seq<PyValue>)
    ensures SetField(resp, "raw", ToRecord(r, storeKeys)) == Success(resp.(raw := r.raw))
  {
    assert ToRecord(r, storeKeys)["raw"] == FieldOf(r, storeKeys, "raw");
  }

  lemma RestoreNext(resp: Response, r: Response, storeKeys: seq<PyValue>)
    ensures SetField(resp, "_next", ToRecord(r, storeKeys)) == Success(resp)
  {
    assert "_next" in ToRecord(r, storeKeys);
  }

  lemma RestoreHeaders(resp: Response, r: Response, storeKeys: seq<PyValue>)
    ensures SetField(resp, "headers", ToRecord(r, storeKeys)) == Success(resp.(headers := r.headers))
  {
    assert ToRecord(r, storeKeys)["headers"] == FieldOf(r, storeKeys, "headers");
  }

  lemma RestoreElapsed(resp: Response, r: Response, storeKeys: seq<PyValue>)
    ensures SetField(resp, "elapsed", ToRecord(r, storeKeys)) == Success(resp.(elapsed := r.elapsed))
  {
    assert ToRecord(r, storeKeys)["elapsed"] == FieldOf(r, storeKeys, "elapsed");
  }

  /** The records `write` stores for `r` and the responses its `next` chain
      continues with, as far as each next response is truthy. */
  function WriteLog(storeKeys: seq<PyValue>, r: Response): (log: seq<(seq<PyValue>, Value)>)
    ensures |log| >= 1 && log[0] == (storeKeys, Record(ToRecord(r, storeKeys)))
    decreases r
  {
    [(storeKeys, Record(ToRecord(r, storeKeys)))] + (if TruthyNext(r) then WriteLog(storeKeys, r.next.value) else [])
  }

  /** The values of stored entries, in order. */
  function Values(log: seq<(seq<PyValue>, Value)>): (vs: seq<Value>)
    ensures |vs| == |log| && forall i :: 0 <= i < |log| ==> vs[i] == log[i].1
  {
    seq(|log|, i requires 0 <= i < |log| => log[i].1)
  }

  /** `read` from the storage's `start`-th answer on: the response, or the
      fault that ended it, and how many `read` calls it made. Every record
      whose `_next` entry is truthy makes it read one more. */
  function ReadChain(answers: seq<Value>, start: nat): (res: (Result<Response, Fault>, nat))
    ensures res.1 >= 1
    decreases |answers| - start
  {
    if start >= |answers| then (Failure(ReadExhausted), 1)
    else if !answers[start].Record? then (Failure(NotARecord), 1)
    else
      var data := answers[start].fields;
      match FromRecord(data)
      case Failure(e) => (Failure(e), 1)
      case Success(resp) =>
        if "_next" in data && TruthyField(data["_next"]) then
          var rest := ReadChain(answers, start + 1);
          (if rest.0.Success? then Success(resp.(next := Some(rest.0.value))) else rest.0, rest.1 + 1)
        else (Success(resp), 1)
  }

  /** Every response in the chain that has a next response has an ok one. */
  predicate ChainOk(r: Response)
    decreases r
  {
    r.next.Some? ==> Ok(r.next.value) && ChainOk(r.next.value)
  }

  /** Replay gives back what was recorded: when the keys are not empty and
      every next response in the chain is ok, reading from where the records
      of `write` start rebuilds the response and its next chain, without
      cookies, and reads exactly as many records as were written. */
  lemma {:induction false} WriteThenRead(storeKeys: seq<PyValue>, r: Response, before: seq<Value>, after: seq<Value>)
    requires |storeKeys| > 0
    requires ChainOk(r)
    ensures ReadChain(before + Values(WriteLog(storeKeys, r)) + after, |before|)
      == (Success(Strip(r)), |WriteLog(storeKeys, r)|)
    decreases r
  {
    var v := Record(ToRecord(r, storeKeys));
    if r.next.Some? {
      var rest := Values(WriteLog(storeKeys, r.next.value));
      WriteLogCons(storeKeys, r);
      var answers := before + ([v] + rest) + after;
      assert answers == (before + [v]) + rest + after;
      assert answers[|before|] == v;
      ReadOneRecord(answers, |before|, r, storeKeys);
      WriteThenRead(storeKeys, r.next.value, before + [v], after);
    } else {
      var answers := before + Values(WriteLog(storeKeys, r)) + after;
      assert Values(WriteLog(storeKeys, r)) == [v];
      assert answers[|before|] == v;
      ReadOneRecord(answers, |before|, r, storeKeys);
    }
  }

  /** A truthy next response is written right after the response itself. */
  lemma WriteLogCons(storeKeys: seq<PyValue>, r: Response)
    requires TruthyNext(r)
    ensures Values(WriteLog(storeKeys, r)) == [Record(ToRecord(r, storeKeys))] + Values(WriteLog(storeKeys, r.next.value))
    ensures |WriteLog(storeKeys, r)| == 1 + |WriteLog(storeKeys, r.next.value)|
  {
    var rest := WriteLog(storeKeys, r.next.value);
    assert WriteLog(storeKeys, r) == [(storeKeys, Record(ToRecord(r, storeKeys)))] + rest;
    assert Values(WriteLog(storeKeys, r)) == [Record(ToRecord(r, storeKeys))] + Values(rest);
  }

  /** Reading one record `_to_dict` made rebuilds the response without its
      next one, then reads on exactly when it had one. */
  lemma ReadOneRecord(answers: seq<Value>, start: nat, r: Response, storeKeys: seq<PyValue>)
    requires |storeKeys| > 0
    requires start < |answers| && answers[start] == Record(ToRecord(r, storeKeys))
    ensures ReadChain(answers, start) ==
      if r.next.None? then (Success(Flat(r)), 1)
      else
        var rest := ReadChain(answers, start + 1);
        (if rest.0.Success? then Success(Flat(r).(next := Some(rest.0.value))) else rest.0, rest.1 + 1)
  {
    RecordRoundTrip(r, storeKeys);
  }

  /** A next response that is not ok is recorded as present (`_next` holds
      the keys) but `write` does not store it, since it is falsy. Whatever
      the storage holds after that single record, replay reads it as the next
      response; with nothing after it, replay asks for one more and runs out. */
  lemma NotOkNextIsNotReplayed(storeKeys: seq<PyValue>, r: Response, before: seq<Value>, after: seq<Value>)
    requires |storeKeys| > 0
    requires r.next.Some? && !Ok(r.next.value)
    ensures |WriteLog(storeKeys, r)| == 1
    ensures var answers := before + Values(WriteLog(storeKeys, r)) + after;
      var rest := ReadChain(answers, |before| + 1);
      ReadChain(answers, |before|)
        == (if rest.0.Success? then Success(Flat(r).(next := Some(rest.0.value))) else rest.0, rest.1 + 1)
    ensures ReadChain(before + Values(WriteLog(storeKeys, r)), |before|) == (Failure(ReadExhausted), 2)
  {
    var v := Record(ToRecord(r, storeKeys));
    assert Values(WriteLog(storeKeys, r)) == [v];
    var answers := before + [v] + after;
    assert answers[|before|] == v;
    ReadOneRecord(answers, |before|, r, storeKeys);
    var alone := before + [v];
    assert alone == alone + [];
    assert alone[|before|] == v;
    ReadOneRecord(alone, |before|, r, storeKeys);
  }

  /** With empty keys the `_next` entry is falsy, so the replay stops after
      the first record even when a next response was written. */
  lemma EmptyKeysStopReplay(r: Response, after: seq<Value>)
    ensures ReadChain(Values(WriteLog([], r)) + after, 0) == (Success(Flat(r)), 1)
  {
    RecordRoundTrip(r, []);
  }

  /** The handler: the keys to store under and the storage to use. */
  class RequestResponseHandling {
    const storeKeys: seq<PyValue>
    const storage: Storage

    constructor (storeKeys: seq<PyValue>, storage: Storage)
      ensures this.storeKeys == storeKeys && this.storage == storage
    {
      this.storeKeys := storeKeys;
      this.storage := storage;
    }

    /** `_to_dict`: the plain keys copied, then the special ones converted. */
    method ToDict(r: Response) returns (output: map<string, Field>)
      ensures output == ToRecord(r, storeKeys)
    {
      output := map[];
      for i := 0 to |ResponseKeys|
        invariant forall k :: k in output <==> k in ResponseKeys[..i]
        invariant forall k :: k in output ==> output[k] == FieldOf(r, storeKeys, k)
      {
        var key := ResponseKeys[i];
        output := output[key := FieldOf(r, storeKeys, key)];
        assert ResponseKeys[..i + 1] == ResponseKeys[..i] + [key];
      }
      assert ResponseKeys[..|ResponseKeys|] == ResponseKeys;
      for i := 0 to |SpecialKeys|
        invariant forall k :: k in output <==> k in ResponseKeys || k in SpecialKeys[..i]
        invariant forall k :: k in output ==> output[k] == FieldOf(r, storeKeys, k)
      {
        var key := SpecialKeys[i];
        if key == "raw" {
          output := output[key := BytesField(r.raw)];
        }
        if key == "headers" {
          output := output[key := HeadersField(r.headers)];
        }
        if key == "elapsed" {
          output := output[key := IntField(r.elapsed)];
        }
        if key == "_next" {
          output := output[key := NoneField];
          if r.next.Some? {
            output := output[key := KeysField(storeKeys)];
          }
        }
        assert SpecialKeys[..i + 1] == SpecialKeys[..i] + [key];
      }
      assert SpecialKeys[..|SpecialKeys|] == SpecialKeys;
      RecordKeys(r, storeKeys);
    }

    /** `_from_dict`: a fresh response, each listed field set in turn. */
    method FromDict(data: map<string, Field>) returns (r: Result<Response, Fault>)
      ensures r == FromRecord(data)
    {
      var keys := ResponseKeys + SpecialKeys;
      var response := Blank;
      assert keys[..0] == [];
      for i := 0 to |keys|
        invariant Assign(Blank, data, keys[..i]) == Success(response)
      {
        assert keys[..i + 1] == keys[..i] + [keys[i]];
        AssignSnoc(Blank, data, keys[..i], keys[i]);
        var next := SetField(response, keys[i], data);
        if next.Failure? {
          AssignStops(data, keys, i + 1);
          return next;
        }
        response := next.value;
      }
      assert keys[..|keys|] == keys;
      r := Success(response);
    }

    /** `write`: store the record, then write the next response if it is truthy. */
    method Write(response: Response) returns (r: Response)
      modifies storage
      ensures r == response
      ensures storage.State() == old(storage.State()).(storeCalls := old(storage.storeCalls) + WriteLog(storeKeys, response))
      decreases response
    {
      var record := ToDict(response);
      storage.Store(storeKeys, Record(record));
      if TruthyNext(response) {
        var _ := Write(response.next.value);
      }
      r := response;
    }

    /** `read`: read a record, rebuild the response, and read its next
        response while the record's `_next` entry is truthy. */
    method Read() returns (r: Result<Response, Fault>)
      modifies storage
      ensures var res := ReadChain(storage.answers, |old(storage.readCalls)|);
        && r == res.0
        && storage.State() == old(storage.State()).(readCalls := old(storage.readCalls) + Repeat(storeKeys, res.1))
      decreases |storage.answers| - |storage.readCalls|
    {
      ghost var start := |storage.readCalls|;
      var data := storage.Read(storeKeys);
      if data.Failure? {
        return Failure(data.error);
      }
      if !data.value.Record? {
        return Failure(NotARecord);
      }
      var fields := data.value.fields;
      var response := FromDict(fields);
      if response.Failure? {
        return response;
      }
      if "_next" in fields && TruthyField(fields["_next"]) {
        var next := Read();
        if next.Failure? {
          return next;
        }
        response := Success(response.value.(next := Some(next.value)));
      }
      r := response;
    }

    /** `execute`: in write mode the function is called and its response
        written; otherwise the response is read back and the function is not
        called. `response` is what the function would return. */
    static method Execute(keys: seq<PyValue>, storage: Storage, response: Response) returns (r: Result<Response, Fault>)
      modifies storage
      ensures storage.writeMode ==>
        && r == Success(response)
        && storage.State() == old(storage.State()).(storeCalls := old(storage.storeCalls) + WriteLog(keys, response))
      ensures !storage.writeMode ==>
        var res := ReadChain(storage.answers, |old(storage.readCalls)|);
        && r == res.0
        && storage.State() == old(storage.State()).(readCalls := old(storage.readCalls) + Repeat(keys, res.1))
    {
      var handler := new RequestResponseHandling(keys, storage);
      if storage.writeMode {
        var written := handler.Write(response);
        r := Success(written);
      } else {
        r := handler.Read();
      }
    }

    /** `execute_all_keys`: the keys are the function's and one `"k:v"` per
        keyword argument. */
    static method ExecuteAllKeys(f: FunctionCall, storage: Storage, response: Response) returns (r: Result<Response, Fault>)
      modifies storage
      ensures storage.writeMode ==>
        && r == Success(response)
        && storage.State() == old(storage.State()).(storeCalls := old(storage.storeCalls)
             + WriteLog(AllKeys(f.moduleName, f.name, f.args, f.kwargs), response))
      ensures !storage.writeMode ==>
        var res := ReadChain(storage.answers, |old(storage.readCalls)|);
        && r == res.0
        && storage.State() == old(storage.State()).(readCalls := old(storage.readCalls)
             + Repeat(AllKeys(f.moduleName, f.name, f.args, f.kwargs), res.1))
    {
      r := Execute(AllKeys(f.moduleName, f.name, f.args, f.kwargs), storage, response);
    }

    /** `decorator_selected_keys`: the keys are the function's and the selected
        arguments; an item that selects nothing raises before anything is
        stored or read. */
    static method ExecuteSelectedKeys(f: FunctionCall, items: seq<Item>, storage: Storage, response: Response)
      returns (r: Result<Response, Fault>)
      modifies storage
      ensures SelectAll(items, f.args, f.kwargs).Failure? ==>
        r == Failure(SelectAll(items, f.args, f.kwargs).error) && storage.State() == old(storage.State())
      ensures SelectAll(items, f.args, f.kwargs).Success? && storage.writeMode ==>
        && r == Success(response)
        && storage.State() == old(storage.State()).(storeCalls := old(storage.storeCalls)
             + WriteLog(FunctionKeys(f.moduleName, f.name) + SelectAll(items, f.args, f.kwargs).value, response))
      ensures SelectAll(items, f.args, f.kwargs).Success? && !storage.writeMode ==>
        var res := ReadChain(storage.answers, |old(storage.readCalls)|);
        && r == res.0
        && storage.State() == old(storage.State()).(readCalls := old(storage.readCalls)
             + Repeat(FunctionKeys(f.moduleName, f.name) + SelectAll(items, f.args, f.kwargs).value, res.1))
    {
      var keys := SelectedKeys(f.moduleName, f.name, items, f.args, f.kwargs);
      if keys.Failure? {
        return Failure(keys.error);
      }
      r := Execute(keys.value, storage, response);
    }
  }

  /** Once a field cannot be set, setting the remaining ones changes nothing. */
  lemma {:induction false} AssignStops(data: map<string, Field>, keys: seq<string>, k: nat)
    requires k <= |keys|
    requires Assign(Blank, data, keys[..k]).Failure?
    ensures Assign(Blank, data, keys) == Assign(Blank, data, keys[..k])
    decreases |keys|
  {
    if k < |keys| {
      var init := keys[..|keys| - 1];
      assert init[..k] == keys[..k];
      AssignStops(data, init, k);
    } else {
      assert keys[..k] == keys;
    }
  }
}
