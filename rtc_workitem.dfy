/**
 * The `WorkItem` class: one RTC work item, held in memory as its decoded JSON record, read and
 * updated field by field, and written back with the ETag it was read with. Each REST call's
 * reply (the response headers and body, or the exception `rest` raised) is an argument, and the
 * request the work item makes is returned; decoding a JSON body is an oracle `decode`.
 */
module RtcWorkItem {
  import opened Wrappers
  import opened Text
  import opened Exec
  import Rtc
  import RtcSession

  /** A decoded JSON value: strings, numbers, null and objects. */
  datatype Value = Str(s: string) | Num(n: int) | Null | Obj(fields: map<string, Value>)

  /** A decoded JSON object, `self._data`. */
  type Record = map<string, Value>

  /** `json.loads`: the object a response body decodes to, None when decoding raises. */
  type Decoder = string -> Option<Record>

  /** What one `rest` call gives back: the headers and the body, or the exception raised. */
  type Reply = Result<(string, string), Error>

  const StateKey := "rtc_cm:state"
  const ResourceKey := "rdf:resource"
  const IdentifierKey := "dc:identifier"
  const CdetsKey := "rtc_cm:cdets"
  const TitleKey := "dc:title"
  const ChangeSetsKey := "rtc_cm:com.ibm.team.filesystem.workitems.change_set.com.ibm.team.scm.ChangeSet"
  const ItemsPath := "oslc/workitems/"
  const RetrievalFailed := "failure in work item retrieval or parsing"
  const NoJson := "No JSON object could be decoded"
  const FactoryMissing := "\"dc:identifier\" missing in response from work item factory"
  const UpdateMissing := "\"dc:identifier\" missing in response to work item update"

  /** Python truthiness of a decoded value, as in `if value:` and `if self._data:`. */
  predicate Truthy(v: Value) {
    match v
    case Str(s) => s != ""
    case Num(n) => n != 0
    case Null => false
    case Obj(m) => m != map[]
  }

  /** `'%s' % v` for an identifier. */
  function Show(v: Value): string {
    match v
    case Str(s) => s
    case Num(n) => IntToString(n)
    case Null => "None"
    case Obj(_) => "{...}"
  }

  // ---------------------------------------------------------------------------------------
  // Telling an id from a project name (rtc.py:268, 281-284): `^([0-9]+)$`

  /** `id_re.match(s)`: a run of digits, then the end of `s` or (`$`) a final newline. */
  predicate IdMatch(s: string) {
    var k := Span(s, DigitChars);
    k > 0 && (k == |s| || (k == |s| - 1 && s[k] == '\n'))
  }

  /** A string is taken as an existing work item's id exactly when it is digits, less a final newline. */
  lemma IdMatchIff(s: string)
    ensures IdMatch(s) <==>
      || (s != [] && AllDigits(s))
      || (|s| >= 2 && s[|s| - 1] == '\n' && AllDigits(s[..|s| - 1]))
  {
    if IdMatch(s) {
      var k := Span(s, DigitChars);
      if k == |s| {
        assert AllDigits(s);
      } else {
        assert forall i :: 0 <= i < |s| - 1 ==> s[..|s| - 1][i] == s[i];
        assert AllDigits(s[..|s| - 1]);
      }
    }
    if s != [] && AllDigits(s) {
      SpanIs(s, |s|, DigitChars);
    } else if |s| >= 2 && s[|s| - 1] == '\n' && AllDigits(s[..|s| - 1]) {
      assert forall i :: 0 <= i < |s| - 1 ==> s[..|s| - 1][i] == s[i];
      SpanIs(s, |s| - 1, DigitChars);
    }
  }

  /** `str(n)` of a work item number is taken as an id, a project name with a letter is not. */
  lemma NumberIsId(n: nat, name: string, j: nat)
    requires j < |name| - 1 || (j == |name| - 1 && name[j] != '\n')
    requires !IsDigit(name[j])
    ensures IdMatch(Decimal(n))
    ensures !IdMatch(name)
  {
    IdMatchIff(Decimal(n));
    IdMatchIff(name);
    assert !AllDigits(name);
    if j < |name| - 1 {
      assert name[..|name| - 1][j] == name[j];
    }
  }

  // ---------------------------------------------------------------------------------------
  // The in-memory state and the operations on it, as functions of the state before the call

  /** A work item's `id`, `_data`, `_etag`, `_project` and `_headers`. */
  datatype Item = Item(id: Value, data: Option<Record>, etag: Option<string>, project: Option<string>, headers: string)

  /** A work item just constructed, before `id` is assigned. */
  const Blank := Item(Null, None, None, None, "")

  /** `if self._data:`: a non-empty record is held, so no GET is needed. */
  predicate Loaded(w: Item) {
    w.data.Some? && w.data.value != map[]
  }

  /** `'oslc/workitems/%s' % self.id` */
  function ItemPath(w: Item): string {
    ItemsPath + Show(w.id)
  }

  /**
   * `_get_data` (rtc.py:343-352): nothing when a record is held; otherwise the GET's exception
   * propagates, and a body that does not decode raises RTCError after `_headers` was stored.
   */
  function Fetch(w: Item, reply: Reply, decode: Decoder): (r: (Result<(), Error>, Item))
    ensures r.0.Ok? ==> r.1.data.Some?
  {
    if Loaded(w) then (Ok(()), w)
    else match reply
      case Err(e) => (Err(e), w)
      case Ok((h, body)) =>
        match decode(body)
        case None => (Err(RtcError(RetrievalFailed)), w.(headers := h))
        case Some(d) => (Ok(()), w.(headers := h, data := Some(d), etag := Rtc.ExtractEtag(h)))
  }

  /** `if value: self._data[name] = value` */
  function Assigned(d: Record, name: string, value: Option<Value>): Record {
    if value.Some? && Truthy(value.value) then d[name := value.value] else d
  }

  /**
   * `getset(name, value)` (rtc.py:356-371): asserts an id, fetches the record, reads the field
   * (KeyError when absent) and overwrites it with a truthy `value`; the old value is returned.
   */
  function GetSetStep(w: Item, name: string, value: Option<Value>, reply: Reply, decode: Decoder): (r: (Result<Value, Error>, Item))
    ensures r.0.Ok? ==> r.1.data.Some?
  {
    if w.id == Null then (Err(AssertionError), w)
    else
      var f := Fetch(w, reply, decode);
      if f.0.Err? then (Err(f.0.error), f.1)
      else
        var d := f.1.data.value;
        if name !in d then (Err(KeyError(name)), f.1)
        else (Ok(d[name]), f.1.(data := Some(Assigned(d, name, value))))
  }

  /** `getset(...)['rdf:resource']` and then `[-1]` on what that gives, with Python's exceptions. */
  function StateUri(state: Value): Result<string, Error> {
    match state
    case Obj(m) =>
      if ResourceKey !in m then Err(KeyError(ResourceKey))
      else (match m[ResourceKey]
        case Str(u) => if u == "" then Err(IndexError) else Ok(u)
        case Obj(_) => Err(KeyError("-1"))
        case _ => Err(TypeError))
    case _ => Err(TypeError)
  }

  /**
   * `state(value)` (rtc.py:372-381): the last character of the state URI; a non-empty `value`
   * replaces that character in the held record.
   */
  function StateStep(w: Item, value: Option<string>, reply: Reply, decode: Decoder): (Result<string, Error>, Item) {
    var g := GetSetStep(w, StateKey, None, reply, decode);
    if g.0.Err? then (Err(g.0.error), g.1)
    else match StateUri(g.0.value)
      case Err(e) => (Err(e), g.1)
      case Ok(u) =>
        var r := u[|u| - 1..];
        if value.None? || value.value == "" then (Ok(r), g.1)
        else
          var state := g.0.value.fields[ResourceKey := Str(u[..|u| - 1] + value.value)];
          (Ok(r), g.1.(data := Some(g.1.data.value[StateKey := Obj(state)])))
  }

  /** `self._data['dc:identifier']`, RTCError when the response lacks it. */
  function Identifier(d: Record, missing: string): Result<Value, Error> {
    if IdentifierKey in d then Ok(d[IdentifierKey]) else Err(RtcError(missing))
  }

  /**
   * The tail shared by `_create` and `flush`: store the reply's headers, decode its body
   * (ValueError when that fails), extract the ETag and return the record's identifier. Without
   * an ETag, `_extract_etag` logs the item's `id` (rtc.py:291); while creating, `id` is not
   * assigned yet (rtc.py:284), so that log line raises AttributeError and the ETag stays unset.
   */
  function Stored(w: Item, reply: Reply, decode: Decoder, creating: bool): (Result<Value, Error>, Item) {
    match reply
    case Err(e) => (Err(e), w)
    case Ok((h, body)) =>
      match decode(body)
      case None => (Err(ValueError(NoJson)), w.(headers := h))
      case Some(d) =>
        var etag := Rtc.ExtractEtag(h);
        if creating && etag.None? then (Err(AttributeError), w.(headers := h, data := Some(d)))
        else (Identifier(d, if creating then FactoryMissing else UpdateMissing), w.(headers := h, data := Some(d), etag := etag))
  }

  /** `'If-Match: %s' % self._etag` */
  function IfMatch(w: Item): string {
    "If-Match: " + match w.etag case Some(e) => e case None => "None"
  }

  /** `flush` (rtc.py:324-342): PUT the record to the item's path, then store the response. */
  function FlushStep(w: Item, reply: Reply, decode: Decoder): (Result<Value, Error>, Item) {
    Stored(w, reply, decode, false)
  }

  /**
   * `_create` (rtc.py:302-323): discover the project, remember its UUID, POST to its work item
   * factory and store the response.
   */
  function CreateStep(disc: Result<RtcSession.Discovery, Error>, reply: Reply, decode: Decoder): (Result<Value, Error>, Item) {
    match disc
    case Err(e) => (Err(e), Blank)
    case Ok(pd) => Stored(Blank.(project := Some(pd.projectUuid)), reply, decode, true)
  }

  /** `WorkItem(rtc, idOrProject)` (rtc.py:269-284): an id is kept as given, a project name creates. */
  function OpenStep(idOrProject: string, disc: Result<RtcSession.Discovery, Error>, reply: Reply, decode: Decoder): Result<Item, Error> {
    if IdMatch(idOrProject) then Ok(Blank.(id := Str(idOrProject)))
    else
      var c := CreateStep(disc, reply, decode);
      if c.0.Err? then Err(c.0.error) else Ok(c.1.(id := c.0.value))
  }

  // ---------------------------------------------------------------------------------------
  // What the operations promise

  /** A held record is never fetched again: the reply is ignored and nothing changes. */
  lemma {:induction false} NoFetchWhenLoaded(w: Item, name: string, reply: Reply, decode: Decoder)
    requires Loaded(w) && w.id != Null
    ensures Fetch(w, reply, decode) == (Ok(()), w)
    ensures GetSetStep(w, name, None, reply, decode)
      == (if name in w.data.value then (Ok(w.data.value[name]), w) else (Err(KeyError(name)), w))
  {
    assert Assigned(w.data.value, name, None) == w.data.value;
  }

  /** An item without an id fails the assertion before any request, and is left as it was. */
  lemma NoIdNoRequest(w: Item, name: string, value: Option<Value>, reply: Reply, decode: Decoder)
    requires w.id == Null
    ensures GetSetStep(w, name, value, reply, decode) == (Err(AssertionError), w)
  {
  }

  /**
   * `getset` returns what the field held, keeps every other field, and stores `value` only when
   * it is truthy.
   */
  lemma GetSetSpec(w: Item, name: string, value: Option<Value>, reply: Reply, decode: Decoder)
    requires w.id != Null
    ensures var g := GetSetStep(w, name, value, reply, decode);
      var f := Fetch(w, reply, decode);
      && (g.0.Ok? <==> f.0.Ok? && name in f.1.data.value)
      && (g.0.Ok? ==>
        && g.0.value == f.1.data.value[name]
        && g.1.data.value.Keys == f.1.data.value.Keys
        && (forall k :: k in f.1.data.value && k != name ==> g.1.data.value[k] == f.1.data.value[k])
        && g.1.data.value[name] == (if value.Some? && Truthy(value.value) then value.value else f.1.data.value[name])
        && g.1.(data := f.1.data) == f.1)
      && (g.0.Err? ==> g.1 == f.1)
  {
  }

  /** A field set with a truthy value reads back on the next `getset`, with no new GET. */
  lemma {:induction false} SetThenGet(w: Item, name: string, v: Value, reply1: Reply, reply2: Reply, decode: Decoder)
    requires Truthy(v)
    requires GetSetStep(w, name, Some(v), reply1, decode).0.Ok?
    ensures var w1 := GetSetStep(w, name, Some(v), reply1, decode).1;
      Loaded(w1) && GetSetStep(w1, name, None, reply2, decode) == (Ok(v), w1)
  {
    var w1 := GetSetStep(w, name, Some(v), reply1, decode).1;
    assert name in w1.data.value;
    NoFetchWhenLoaded(w1, name, reply2, decode);
  }

  /**
   * `state(value)` then `state()` reads the last character of `value`: the URI keeps all but its
   * last character and gains `value`; the rest of the record is unchanged.
   */
  lemma {:induction false} StateRoundTrip(w: Item, value: string, reply1: Reply, reply2: Reply, decode: Decoder)
    requires value != ""
    requires StateStep(w, Some(value), reply1, decode).0.Ok?
    ensures var s := StateStep(w, Some(value), reply1, decode);
      var g := GetSetStep(w, StateKey, None, reply1, decode);
      var u := StateUri(g.0.value).value;
      && s.0 == Ok(u[|u| - 1..])
      && StateUri(s.1.data.value[StateKey]) == Ok(u[..|u| - 1] + value)
      && (forall k :: k in g.1.data.value && k != StateKey ==> s.1.data.value[k] == g.1.data.value[k])
      && StateStep(s.1, None, reply2, decode) == (Ok([value[|value| - 1]]), s.1)
  {
    var s := StateStep(w, Some(value), reply1, decode);
    var g := GetSetStep(w, StateKey, None, reply1, decode);
    var u := StateUri(g.0.value).value;
    var u' := u[..|u| - 1] + value;
    var w1 := s.1;
    assert StateKey in w1.data.value;
    NoFetchWhenLoaded(w1, StateKey, reply2, decode);
    assert StateUri(w1.data.value[StateKey]) == Ok(u');
    assert u'[|u'| - 1..] == [value[|value| - 1]];
  }

  /**
   * `flush` sends the ETag last read (`If-Match: None` without one) and afterwards holds the
   * response's record and ETag; without the identifier it raises RTCError.
   */
  lemma FlushSpec(w: Item, h: string, body: string, decode: Decoder)
    ensures IfMatch(w) == "If-Match: " + (if w.etag.Some? then w.etag.value else "None")
    ensures var f := FlushStep(w, Ok((h, body)), decode);
      && f.1.id == w.id && f.1.project == w.project && f.1.headers == h
      && (decode(body).None? ==> f.0 == Err(ValueError(NoJson)) && f.1.data == w.data && f.1.etag == w.etag)
      && (decode(body).Some? ==>
        && f.1.data == decode(body) && f.1.etag == Rtc.ExtractEtag(h)
        && (f.0.Ok? <==> IdentifierKey in decode(body).value))
  {
  }

  /** A flush whose response carries `ETag: "e"` leaves the item holding `e` for the next flush. */
  lemma FlushStoresEtag(w: Item, e: string, rest: string, body: string, d: Record, decode: Decoder)
    requires '"' !in e && '\n' !in e
    requires decode(body) == Some(d)
    ensures IfMatch(FlushStep(w, Ok((Rtc.EtagTag + e + "\"" + rest, body)), decode).1) == "If-Match: " + e
  {
    Rtc.EtagOfHeader(e, rest);
  }

  /**
   * A project name creates a work item whose id is the factory's `dc:identifier`, whose project
   * is the discovered UUID and whose ETag is the factory reply's; a reply without an ETag raises
   * AttributeError. An id is kept as given, with nothing fetched.
   */
  lemma OpenSpec(idOrProject: string, disc: Result<RtcSession.Discovery, Error>, reply: Reply, decode: Decoder)
    ensures var o := OpenStep(idOrProject, disc, reply, decode);
      && (IdMatch(idOrProject) ==> o == Ok(Item(Str(idOrProject), None, None, None, "")))
      && (!IdMatch(idOrProject) && disc.Err? ==> o == Err(disc.error))
      && (!IdMatch(idOrProject) && disc.Ok? && reply.Ok? && decode(reply.value.1).Some? && Rtc.ExtractEtag(reply.value.0).None?
          ==> o == Err(AttributeError))
      && (!IdMatch(idOrProject) && disc.Ok? && o.Ok? ==>
        && reply.Ok? && decode(reply.value.1).Some?
        && o.value.id == decode(reply.value.1).value[IdentifierKey]
        && o.value.project == Some(disc.value.projectUuid)
        && o.value.data == decode(reply.value.1)
        && o.value.etag == Rtc.ExtractEtag(reply.value.0) && o.value.etag.Some?)
  {
  }

  // ---------------------------------------------------------------------------------------
  // The class

  class WorkItem {
    var id: Value
    var data: Option<Record>
    var etag: Option<string>
    var project: Option<string>
    var headers: string

    function View(): Item
      reads this
    {
      Item(id, data, etag, project, headers)
    }

    constructor ()
      ensures View() == Blank
    {
      id, data, etag, project, headers := Null, None, None, None, "";
    }

    /** `_get_data`; `requested` is the path of the GET made, if one was. */
    method GetData(reply: Reply, decode: Decoder) returns (r: Result<(), Error>, requested: Option<string>)
      modifies this
      ensures (r, View()) == Fetch(old(View()), reply, decode)
      ensures requested == if Loaded(old(View())) then None else Some(ItemPath(old(View())))
    {
      if data.Some? && data.value != map[] {
        return Ok(()), None;
      }
      requested := Some(ItemsPath + Show(id));
      if reply.Err? {
        return Err(reply.error), requested;
      }
      var (h, body) := reply.value;
      headers := h;
      var d := decode(body);
      if d.None? {
        return Err(RtcError(RetrievalFailed)), requested;
      }
      data := d;
      etag := Rtc.ExtractEtag(h);
      r := Ok(());
    }

    /** `etag()`: the ETag held after `_get_data`. */
    method Etag(reply: Reply, decode: Decoder) returns (r: Result<Option<string>, Error>, requested: Option<string>)
      modifies this
      ensures var f := Fetch(old(View()), reply, decode);
        View() == f.1 && r == (if f.0.Err? then Err(f.0.error) else Ok(f.1.etag))
      ensures requested == if Loaded(old(View())) then None else Some(ItemPath(old(View())))
    {
      var g;
      g, requested := GetData(reply, decode);
      if g.Err? {
        return Err(g.error), requested;
      }
      r := Ok(etag);
    }

    /** `getset(name, value)` */
    method GetSet(name: string, value: Option<Value>, reply: Reply, decode: Decoder) returns (r: Result<Value, Error>, requested: Option<string>)
      modifies this
      ensures (r, View()) == GetSetStep(old(View()), name, value, reply, decode)
      ensures requested == if old(id) == Null || Loaded(old(View())) then None else Some(ItemPath(old(View())))
    {
      if id == Null {
        return Err(AssertionError), None;
      }
      var g;
      g, requested := GetData(reply, decode);
      if g.Err? {
        return Err(g.error), requested;
      }
      var d := data.value;
      if name !in d {
        return Err(KeyError(name)), requested;
      }
      r := Ok(d[name]);
      if value.Some? && Truthy(value.value) {
        data := Some(d[name := value.value]);
      }
    }

    /** `state(value)` */
    method State(value: Option<string>, reply: Reply, decode: Decoder) returns (r: Result<string, Error>, requested: Option<string>)
      modifies this
      ensures (r, View()) == StateStep(old(View()), value, reply, decode)
      ensures requested == if old(id) == Null || Loaded(old(View())) then None else Some(ItemPath(old(View())))
    {
      var g;
      g, requested := GetSet(StateKey, None, reply, decode);
      if g.Err? {
        return Err(g.error), requested;
      }
      var uri := StateUri(g.value);
      if uri.Err? {
        return Err(uri.error), requested;
      }
      var u := uri.value;
      r := Ok(u[|u| - 1..]);
      if value.Some? && value.value != "" {
        var state := g.value.fields[ResourceKey := Str(u[..|u| - 1] + value.value)];
        data := Some(data.value[StateKey := Obj(state)]);
      }
    }

    /** `cdets(value)` */
    method Cdets(value: Option<Value>, reply: Reply, decode: Decoder) returns (r: Result<Value, Error>, requested: Option<string>)
      modifies this
      ensures (r, View()) == GetSetStep(old(View()), CdetsKey, value, reply, decode)
    {
      r, requested := GetSet(CdetsKey, value, reply, decode);
    }

    /** `title(value)` */
    method Title(value: Option<Value>, reply: Reply, decode: Decoder) returns (r: Result<Value, Error>, requested: Option<string>)
      modifies this
      ensures (r, View()) == GetSetStep(old(View()), TitleKey, value, reply, decode)
    {
      r, requested := GetSet(TitleKey, value, reply, decode);
    }

    /** `changesets(value)` */
    method ChangeSets(value: Option<Value>, reply: Reply, decode: Decoder) returns (r: Result<Value, Error>, requested: Option<string>)
      modifies this
      ensures (r, View()) == GetSetStep(old(View()), ChangeSetsKey, value, reply, decode)
    {
      r, requested := GetSet(ChangeSetsKey, value, reply, decode);
    }

    /** The response handling of `_create` and `flush`. */
    method Store(reply: Reply, decode: Decoder, creating: bool) returns (r: Result<Value, Error>)
      modifies this
      ensures (r, View()) == Stored(old(View()), reply, decode, creating)
    {
      if reply.Err? {
        return Err(reply.error);
      }
      var (h, body) := reply.value;
      headers := h;
      var d := decode(body);
      if d.None? {
        return Err(ValueError(NoJson));
      }
      data := d;
      var e := Rtc.ExtractEtag(h);
      if creating && e.None? {
        // the log line of `_extract_etag` reads `self.id`, not yet assigned while creating
        return Err(AttributeError);
      }
      etag := e;
      r := Identifier(d.value, if creating then FactoryMissing else UpdateMissing);
    }

    /** `flush()`: the PUT's path and `If-Match` header, and what the item then holds. */
    method Flush(reply: Reply, decode: Decoder) returns (r: Result<Value, Error>, path: string, ifMatch: string)
      modifies this
      ensures path == ItemPath(old(View())) && ifMatch == IfMatch(old(View()))
      ensures (r, View()) == FlushStep(old(View()), reply, decode)
    {
      path := ItemsPath + Show(id);
      ifMatch := "If-Match: " + match etag case Some(e) => e case None => "None";
      r := Store(reply, decode, false);
    }

    /** `_create(project)`: `posted` is the factory path the POST went to, if discovery succeeded. */
    method Create(disc: Result<RtcSession.Discovery, Error>, reply: Reply, decode: Decoder) returns (r: Result<Value, Error>, posted: Option<string>)
      requires View() == Blank
      modifies this
      ensures (r, View()) == CreateStep(disc, reply, decode)
      ensures posted == if disc.Ok? then Some(disc.value.workItemFactory) else None
    {
      if disc.Err? {
        return Err(disc.error), None;
      }
      project := Some(disc.value.projectUuid);
      posted := Some(disc.value.workItemFactory);
      r := Store(reply, decode, true);
    }
  }

  /** `WorkItem(rtc, idOrProject)`; `posted` is the factory path of the POST, if one was made. */
  method Open(idOrProject: string, disc: Result<RtcSession.Discovery, Error>, reply: Reply, decode: Decoder)
      returns (r: Result<WorkItem, Error>, posted: Option<string>)
    ensures posted.Some? <==> !IdMatch(idOrProject) && disc.Ok?
    ensures r.Ok? <==> OpenStep(idOrProject, disc, reply, decode).Ok?
    ensures r.Ok? ==> fresh(r.value) && r.value.View() == OpenStep(idOrProject, disc, reply, decode).value
    ensures r.Err? ==> r.error == OpenStep(idOrProject, disc, reply, decode).error
  {
    var w := new WorkItem();
    if IdMatch(idOrProject) {
      w.id := Str(idOrProject);
      return Ok(w), None;
    }
    var c;
    c, posted := w.Create(disc, reply, decode);
    if c.Err? {
      return Err(c.error), posted;
    }
    w.id := c.value;
    r := Ok(w);
  }
}
