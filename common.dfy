/** Vocabulary shared by every resource adapter of the provider: optional
    values, the attribute store that stands for Terraform's ResourceData,
    the answers of the vendor API, the verdict of one retry attempt and
    paginated listings. */
module Common {

  datatype Option<T> = None | Some(value: T)

  datatype Result<T, E> = Ok(value: T) | Err(error: E)

  /** A Terraform attribute value. A schema.Set is held as `Set` with its
      elements in the order the framework lists them. */
  datatype Value =
    | Null
    | Str(s: string)
    | Bool(b: bool)
    | Int(i: int)
    | List(items: seq<Value>)
    | Set(elems: seq<Value>)
    | Map(entries: map<string, Value>)

  type Attrs = map<string, Value>

  // Typed reads of an attribute. The schema guarantees the type of every
  // attribute; a missing or ill-typed one reads as Go's zero value.

  function StringOf(v: Value): string { if v.Str? then v.s else "" }
  function BoolOf(v: Value): bool { v.Bool? && v.b }
  function IntOf(v: Value): int { if v.Int? then v.i else 0 }
  function ListOf(v: Value): seq<Value> { if v.List? then v.items else [] }
  function SetOf(v: Value): seq<Value> { if v.Set? then v.elems else [] }
  function MapOf(v: Value): map<string, Value> { if v.Map? then v.entries else map[] }

  function Get(attrs: Attrs, key: string): Value { if key in attrs then attrs[key] else Null }
  function GetString(attrs: Attrs, key: string): string { StringOf(Get(attrs, key)) }
  function GetBool(attrs: Attrs, key: string): bool { BoolOf(Get(attrs, key)) }

  /** The attribute value of an optional API field: the value, or null when
      the field is absent. */
  function StringOrNull(s: Option<string>): Value { if s.Some? then Str(s.value) else Null }
  function BoolOrNull(b: Option<bool>): Value { if b.Some? then Bool(b.value) else Null }

  /** The zero value of its type: what `GetOk` reports as "not set". */
  predicate IsZero(v: Value)
  {
    match v
    case Null => true
    case Str(s) => s == ""
    case Bool(b) => !b
    case Int(i) => i == 0
    case List(xs) => xs == []
    case Set(xs) => xs == []
    case Map(m) => m == map[]
  }

  /** ResourceData.GetOk: the attribute is present and not its zero value. */
  predicate GetOk(attrs: Attrs, key: string) { key in attrs && !IsZero(attrs[key]) }

  /** The strings of a list of values, element by element. */
  function Strings(xs: seq<Value>): (r: seq<string>)
    ensures |r| == |xs|
    ensures forall i :: 0 <= i < |xs| ==> r[i] == StringOf(xs[i])
  {
    seq(|xs|, i requires 0 <= i < |xs| => StringOf(xs[i]))
  }

  /** A list of strings as an attribute value. */
  function StrValues(ss: seq<string>): (r: seq<Value>)
    ensures |r| == |ss|
    ensures forall i :: 0 <= i < |ss| ==> r[i] == Str(ss[i])
  {
    seq(|ss|, i requires 0 <= i < |ss| => Str(ss[i]))
  }

  /** The elements of a set-valued attribute, as a mathematical set. */
  function Elements(v: Value): set<Value> { set x | x in SetOf(v) }

  /** A set-of-strings attribute that is unset or holds strings only, as
      its schema says. */
  predicate StringSetWellTyped(attrs: Attrs, key: string)
  {
    var v := Get(attrs, key);
    (v.Null? || v.Set?) && forall x :: x in SetOf(v) ==> x.Str?
  }

  /** A set-of-strings attribute as a string list: nil when it is unset or
      empty (GetOk), otherwise setToStringList of the set. */
  function StringSetList(attrs: Attrs, key: string): Option<seq<string>>
  {
    if GetOk(attrs, key) then Some(Strings(SetOf(attrs[key]))) else None
  }

  /** stringListToSet, with nil for a nil list. */
  function ListToStringSet(l: Option<seq<string>>): Value
  {
    if l.Some? then Set(StrValues(l.value)) else Null
  }

  /** Reading back a list built from a set of strings gives the same set. */
  lemma {:induction false} StringSetRoundTrip(attrs: Attrs, key: string)
    requires StringSetWellTyped(attrs, key)
    ensures Elements(ListToStringSet(StringSetList(attrs, key))) == Elements(Get(attrs, key))
  {
    var xs := SetOf(Get(attrs, key));
    if |xs| > 0 {
      assert GetOk(attrs, key);
      var ss := Strings(xs);
      forall i | 0 <= i < |xs| ensures StrValues(ss)[i] == xs[i] {
        assert xs[i] in xs;
      }
      assert StrValues(ss) == xs;
    }
  }

  /** A map of strings as an attribute value. */
  function StrMapValue(m: map<string, string>): Value
  {
    Map(map k | k in m :: Str(m[k]))
  }

  /** The strings of a map-valued attribute, key for key. */
  function StringMap(m: map<string, Value>): map<string, string>
  {
    map k | k in m :: StringOf(m[k])
  }

  /** The `for key, val := range m { r[key] = val.(string) }` loop that
      copies a map attribute into a fresh map of strings. */
  method CopyStrings(m: map<string, Value>) returns (r: map<string, string>)
    ensures r == StringMap(m)
  {
    r := map[];
    var keys := m.Keys;
    while keys != {}
      invariant keys <= m.Keys
      invariant r.Keys == m.Keys - keys
      invariant forall k :: k in r ==> r[k] == StringOf(m[k])
      decreases keys
    {
      var k :| k in keys;
      r := r[k := StringOf(m[k])];
      keys := keys - {k};
    }
  }

  /** Reading a map of strings back: StrMapValue and StringMap are inverse. */
  lemma {:induction false} StringMapRoundTrip(m: map<string, string>)
    ensures StringMap(MapOf(StrMapValue(m))) == m
  {
  }

  /** Go's strconv.Itoa on a natural number. */
  function NatToString(n: nat): (s: string)
    ensures |s| >= 1
    decreases n
  {
    if n < 10 then [Digit(n)] else NatToString(n / 10) + [Digit(n % 10)]
  }

  function Digit(d: nat): char
    requires d < 10
  {
    "0123456789"[d]
  }

  lemma {:induction false} DigitInjective(a: nat, b: nat)
    requires a < 10 && b < 10 && Digit(a) == Digit(b)
    ensures a == b
  {
  }

  /** Distinct numbers print differently. */
  lemma {:induction false} NatToStringInjective(m: nat, n: nat)
    requires NatToString(m) == NatToString(n)
    ensures m == n
    decreases m
  {
    var s := NatToString(m);
    if m < 10 && n < 10 {
      DigitInjective(m, n);
    } else if m >= 10 && n >= 10 {
      var p, q := NatToString(m / 10), NatToString(n / 10);
      assert s == p + [Digit(m % 10)] == q + [Digit(n % 10)];
      assert |p| == |q|;
      assert s[|p|] == Digit(m % 10) && s[|q|] == Digit(n % 10);
      DigitInjective(m % 10, n % 10);
      assert p == s[..|p|] == q;
      NatToStringInjective(m / 10, n / 10);
    }
  }

  /** Go's strings.HasPrefix. */
  predicate HasPrefix(s: string, prefix: string)
  {
    |prefix| <= |s| && s[..|prefix|] == prefix
  }

  /** The terraform ResourceData of one resource: its id and the attribute
      values written with Set. */
  class ResourceData {
    var id: string
    var attrs: Attrs

    constructor (id: string, attrs: Attrs)
      ensures this.id == id && this.attrs == attrs
    {
      this.id := id;
      this.attrs := attrs;
    }

    /** d.SetId */
    method SetId(newId: string)
      modifies this
      ensures id == newId && attrs == old(attrs)
    {
      id := newId;
    }

    /** d.Set */
    method Set(key: string, v: Value)
      modifies this
      ensures attrs == old(attrs)[key := v] && id == old(id)
    {
      attrs := attrs[key := v];
    }
  }

  /** The answer to one API call: the decoded body, or an error together
      with the HTTP status of the response. A call that got no response at
      all is an error with a status other than 404. */
  datatype Response<T> = Found(body: T) | ErrorStatus(status: int)

  const StatusNotFound: int := 404

  /** isStatus404 */
  predicate IsStatus404<T>(r: Response<T>) { r.ErrorStatus? && r.status == StatusNotFound }

  /** The verdict of one attempt inside the retry helpers: nil, a
      RetryableError or a NonRetryableError. */
  datatype Attempt = Done | Retryable | NonRetryable

  /** How a retry loop ends: an attempt returned nil, an attempt returned a
      non-retryable error, or the time budget ran out while every attempt
      was retryable. */
  datatype PollResult = Succeeded | Aborted | TimedOut

  /** Attempt i returns nil after only retryable attempts before it. */
  predicate SucceedsAt(attempts: seq<Attempt>, i: int)
  {
    0 <= i < |attempts| && attempts[i] == Done && forall j :: 0 <= j < i ==> attempts[j] == Retryable
  }

  /** The retry loop over the attempts that fit in its time budget. */
  function Poll(attempts: seq<Attempt>): (r: PollResult)
    ensures r == Succeeded <==> exists i :: SucceedsAt(attempts, i)
    ensures r == TimedOut <==> forall i :: 0 <= i < |attempts| ==> attempts[i] == Retryable
  {
    if attempts == [] then TimedOut
    else if attempts[0] == Done then
      assert SucceedsAt(attempts, 0);
      Succeeded
    else if attempts[0] == NonRetryable then Aborted
    else
      var rest := attempts[1..];
      var r := Poll(rest);
      assert forall i :: 0 <= i < |rest| ==> rest[i] == attempts[i + 1];
      assert forall i :: SucceedsAt(rest, i) ==> SucceedsAt(attempts, i + 1);
      assert forall i :: SucceedsAt(attempts, i) ==> SucceedsAt(rest, i - 1);
      assert (forall i :: 0 <= i < |attempts| ==> attempts[i] == Retryable)
        <==> (forall i :: 0 <= i < |rest| ==> rest[i] == Retryable);
      r
  }

  // ---------------------------------------------------------------------
  // Paginated listings

  /** One page of a listing: an error, or a (possibly nil) entity list. */
  datatype Page<E> = PageError(status: int) | Page(entities: Option<seq<E>>)

  const PageSize: nat := 100

  /** The (pageNumber, pageSize) arguments of one page request. */
  datatype PageRequest = PageRequest(pageNumber: nat, pageSize: nat)

  /** A page loop ends on this page: an error, a nil or an empty list. */
  predicate Stops<E>(p: Page<E>)
  {
    p.PageError? || p.entities.None? || |p.entities.value| == 0
  }

  function Entities<E>(p: Page<E>): seq<E>
  {
    if p.Page? && p.entities.Some? then p.entities.value else []
  }

  /** The server eventually answers with a page that stops the loop. */
  predicate Terminates<E>(pages: seq<Page<E>>)
  {
    exists k :: 0 <= k < |pages| && Stops(pages[k])
  }

  /** The index of the page on which a page loop stops. */
  function FirstStop<E>(pages: seq<Page<E>>): (k: nat)
    requires Terminates(pages)
    ensures k < |pages| && Stops(pages[k])
    ensures forall j :: 0 <= j < k ==> !Stops(pages[j])
  {
    if Stops(pages[0]) then 0
    else
      assert Terminates(pages[1..]) by {
        var k :| 0 <= k < |pages| && Stops(pages[k]);
        assert k > 0 && pages[1..][k - 1] == pages[k];
      }
      var k := FirstStop(pages[1..]);
      assert forall j :: 1 <= j < k + 1 ==> pages[j] == pages[1..][j - 1];
      k + 1
  }

  /** The entities of the first n pages, page by page. */
  function Visited<E>(pages: seq<Page<E>>, n: nat): seq<E>
    requires n <= |pages|
  {
    if n == 0 then [] else Visited(pages, n - 1) + Entities(pages[n - 1])
  }

  /** The requests for pages 1 .. n. */
  function Requests(n: nat): (rs: seq<PageRequest>)
    ensures |rs| == n
    ensures forall i :: 0 <= i < n ==> rs[i] == PageRequest(i + 1, PageSize)
  {
    if n == 0 then [] else Requests(n - 1) + [PageRequest(n, PageSize)]
  }

  /** What an exporter records for one entity: Some((id, name)), or None when
      the entity is filtered out. */
  type Entry = Option<(string, string)>

  function Put(m: map<string, string>, e: Entry): map<string, string>
  {
    if e.Some? then m[e.value.0 := e.value.1] else m
  }

  /** The id-to-name map an exporter accumulates over a run of entities;
      a later entity with the same id overwrites an earlier one. */
  function Gather<E>(ents: seq<E>, entry: E -> Entry): map<string, string>
  {
    if ents == [] then map[]
    else Put(Gather(ents[..|ents| - 1], entry), entry(ents[|ents| - 1]))
  }

  /** The result of an exporter's page loop: the map over every page before
      the stopping one, or the status of a failed page. */
  function Export<E>(pages: seq<Page<E>>, entry: E -> Entry): Result<map<string, string>, int>
    requires Terminates(pages)
  {
    var k := FirstStop(pages);
    if pages[k].PageError? then Err(pages[k].status) else Ok(Gather(Visited(pages, k), entry))
  }

  lemma {:induction false} GatherSnoc<E>(ents: seq<E>, e: E, entry: E -> Entry)
    ensures Gather(ents + [e], entry) == Put(Gather(ents, entry), entry(e))
  {
    assert (ents + [e])[..|ents|] == ents;
  }

  /** The loop over one page's entities: each entity the filter keeps is
      written into the export map, later ones overwriting earlier ones. */
  method GatherInto<E>(m: map<string, string>, ghost seen: seq<E>, ents: seq<E>, entry: E -> Entry)
    returns (m': map<string, string>)
    requires m == Gather(seen, entry)
    ensures m' == Gather(seen + ents, entry)
  {
    m' := m;
    assert seen + ents[..0] == seen;
    var i := 0;
    while i < |ents|
      invariant 0 <= i <= |ents|
      invariant m' == Gather(seen + ents[..i], entry)
    {
      assert seen + ents[..i + 1] == (seen + ents[..i]) + [ents[i]];
      GatherSnoc(seen + ents[..i], ents[i], entry);
      var e := entry(ents[i]);
      if e.Some? {
        m' := m'[e.value.0 := e.value.1];
      }
      i := i + 1;
    }
    assert ents[..i] == ents;
  }

  /** The page loop the exporters share: request pages 1, 2, ... of size 100,
      record the entities each page lists that `entry` keeps, and stop on a
      nil or empty page (the export so far) or a failed page (its status). */
  method ExportPages<E>(pages: seq<Page<E>>, entry: E -> Entry)
    returns (resources: Result<map<string, string>, int>, requests: seq<PageRequest>)
    requires Terminates(pages)
    ensures resources == Export(pages, entry)
    ensures requests == Requests(FirstStop(pages) + 1)
  {
    var k := FirstStop(pages);
    var m: map<string, string> := map[];
    ghost var seen: seq<E> := [];
    requests := [];
    var pageNum := 1;
    while true
      invariant 1 <= pageNum <= k + 1
      invariant seen == Visited(pages, pageNum - 1)
      invariant m == Gather(seen, entry)
      invariant requests == Requests(pageNum - 1)
      decreases k + 1 - pageNum
    {
      requests := requests + [PageRequest(pageNum, PageSize)];
      var page := pages[pageNum - 1];
      if page.PageError? {
        assert pageNum - 1 == k;
        return Err(page.status), requests;
      }
      if page.entities.None? || |page.entities.value| == 0 {
        assert pageNum - 1 == k;
        break;
      }
      var entities := page.entities.value;
      m := GatherInto(m, seen, entities, entry);
      seen := seen + entities;
      pageNum := pageNum + 1;
    }
    resources := Ok(m);
  }

  /** An id is exported exactly when some entity of the run carries it and
      passes the filter. */
  lemma {:induction false} GatherKeys<E>(ents: seq<E>, entry: E -> Entry, id: string)
    ensures id in Gather(ents, entry) <==>
      exists i :: 0 <= i < |ents| && entry(ents[i]).Some? && entry(ents[i]).value.0 == id
  {
    if ents != [] {
      var n := |ents| - 1;
      var init := ents[..n];
      GatherKeys(init, entry, id);
      assert forall i :: 0 <= i < n ==> init[i] == ents[i];
      if exists i :: 0 <= i < |ents| && entry(ents[i]).Some? && entry(ents[i]).value.0 == id {
        var i :| 0 <= i < |ents| && entry(ents[i]).Some? && entry(ents[i]).value.0 == id;
        if i < n { assert init[i] == ents[i]; }
      }
    }
  }

  /** The name exported for an id is that of the last entity carrying it. */
  lemma {:induction false} GatherName<E>(ents: seq<E>, entry: E -> Entry, i: nat, id: string, name: string)
    requires i < |ents| && entry(ents[i]) == Some((id, name))
    requires forall j :: i < j < |ents| ==> entry(ents[j]).None? || entry(ents[j]).value.0 != id
    ensures id in Gather(ents, entry) && Gather(ents, entry)[id] == name
  {
    var n := |ents| - 1;
    if i < n {
      var init := ents[..n];
      assert forall j :: i < j < |init| ==> init[j] == ents[j];
      GatherName(init, entry, i, id, name);
    }
  }

  /** The entities of fewer pages are a prefix of those of more pages. */
  lemma {:induction false} VisitedPrefix<E>(pages: seq<Page<E>>, m: nat, n: nat)
    requires m <= n <= |pages|
    ensures |Visited(pages, m)| <= |Visited(pages, n)|
    ensures Visited(pages, n)[..|Visited(pages, m)|] == Visited(pages, m)
    decreases n
  {
    if m < n {
      VisitedPrefix(pages, m, n - 1);
      var v := Visited(pages, n - 1);
      assert Visited(pages, n) == v + Entities(pages[n - 1]);
      assert (v + Entities(pages[n - 1]))[..|Visited(pages, m)|] == v[..|Visited(pages, m)|];
    }
  }
}
