/**
 * Selection of the structured-data block both detail pages start from:
 *
 *   [...document.querySelectorAll('script[type="application/ld+json"]')]
 *     .map(x => JSON.parse(x.innerText)).map(x => Array.isArray(x) ? x[0] : x)
 *
 * and then the first element whose `@type == 'Event'`. The code is the same,
 * line for line, in both site families, so it is modelled once.
 */
module LdJson {
  import opened Js
  import opened Capture

  datatype Offers = Offers(url: JsStr)

  datatype Location = Location(
    typ: JsStr,
    name: JsStr,
    address: JsStr,
    streetAddress: JsStr,
    addressLocality: JsStr,
    addressRegion: JsStr,
    postalCode: JsStr)

  /** An `@type` value: a string (None when it is missing or null), or an
      array of type names, which schema.org allows. */
  datatype LdType = TypeName(name: JsStr) | TypeList(names: seq<string>)

  /** The members of a JSON-LD object that the detail pages read. */
  datatype LdObject = LdObject(
    typ: LdType,
    startDate: JsStr,
    endDate: JsStr,
    image: JsStr,
    offers: Option<Offers>,
    location: Option<Location>,
    ageRange: JsStr,
    typicalAgeRange: JsStr,
    doorTime: JsStr)

  /** A value `JSON.parse` can return: null, a number/string/boolean, an object or an array. */
  datatype LdValue = LdNull | LdScalar | LdObj(obj: LdObject) | LdArray(items: seq<LdValue>)

  /** One `<script type="application/ld+json">`: its text parses, or
      `JSON.parse` throws a SyntaxError with the given message. */
  datatype Script = Parsed(value: LdValue) | Unparseable(msg: string)

  /** The result of `x => Array.isArray(x) ? x[0] : x`; an empty array gives undefined. */
  datatype Projected = Undefined | Value(v: LdValue)

  function Project(v: LdValue): Projected
  {
    if v.LdArray? then (if |v.items| == 0 then Undefined else Value(v.items[0])) else Value(v)
  }

  /** Reading `x['@type']` throws on these. */
  predicate Nullish(p: Projected)
  {
    p.Undefined? || p == Value(LdNull)
  }

  /** `t == 'Event'` under JavaScript's loose equality: an array is
      compared through its `toString`, its elements joined by ",". */
  predicate LooseIsEvent(t: LdType)
  {
    match t
    case TypeName(n) => n == Some("Event")
    case TypeList(ns) => Join(ns, ",") == "Event"
  }

  /** An `@type` array equals 'Event' loosely exactly when it is `["Event"]`. */
  lemma TypeListIsEvent(ns: seq<string>)
    ensures LooseIsEvent(TypeList(ns)) <==> ns == ["Event"]
  {
    if |ns| >= 2 {
      var j := Join(ns, ",");
      assert j == ns[0] + "," + Join(ns[1..], ",");
      assert j[|ns[0]|] == ',';
      assert ',' !in "Event";
      assert j != "Event";
    }
  }

  /** `x['@type'] == 'Event'` for a value it does not throw on. */
  predicate EventTyped(p: Projected)
  {
    p.Value? && p.v.LdObj? && LooseIsEvent(p.v.obj.typ)
  }

  const NoLdEventMsg := "Could not extract json+ld event data (@Type=='Event')"

  /** The first `.map`: every script is parsed, and the first syntax error escapes. */
  function ParseAll(scripts: seq<Script>): (r: Result<seq<LdValue>>)
    ensures r.Ok? <==> forall i :: 0 <= i < |scripts| ==> scripts[i].Parsed?
    ensures r.Ok? ==> |r.value| == |scripts| && forall i :: 0 <= i < |scripts| ==> r.value[i] == scripts[i].value
  {
    if scripts == [] then Ok([])
    else if scripts[0].Unparseable? then Fail(scripts[0].msg)
    else
      match ParseAll(scripts[1..])
      case Fail(m) => Fail(m)
      case Ok(rest) => Ok([scripts[0].value] + rest)
  }

  /** The Event-typed objects among the projected values, in order. */
  function EventsOf(vs: seq<LdValue>): seq<LdObject>
  {
    if vs == [] then []
    else (if EventTyped(Project(vs[0])) then [Project(vs[0]).v.obj] else []) + EventsOf(vs[1..])
  }

  /** `.filter(x => x['@type'] == 'Event')`: it looks at every element, so a
      null or undefined anywhere throws, even after an Event. */
  function FilterEvents(vs: seq<LdValue>): (r: Result<seq<LdObject>>)
    ensures r.Ok? <==> forall i :: 0 <= i < |vs| ==> !Nullish(Project(vs[i]))
    ensures r.Ok? ==> r.value == EventsOf(vs)
  {
    if vs == [] then Ok([])
    else if Project(vs[0]).Undefined? then Fail(UndefinedRead("@type"))
    else if Project(vs[0]) == Value(LdNull) then Fail(NullRead("@type"))
    else
      match FilterEvents(vs[1..])
      case Fail(m) => Fail(m)
      case Ok(rest) => Ok((if EventTyped(Project(vs[0])) then [Project(vs[0]).v.obj] else []) + rest)
  }

  /** The LD step of a detail page: the chosen object, or the message it throws. */
  function SelectLdEvent(scripts: seq<Script>): Result<LdObject>
  {
    match ParseAll(scripts)
    case Fail(m) => Fail(m)
    case Ok(vs) =>
      match FilterEvents(vs)
      case Fail(m) => Fail(m)
      case Ok(evs) => if |evs| > 0 then Ok(evs[0]) else Fail(NoLdEventMsg)
  }

  /** The first Event-typed value is the head of the filtered list. */
  lemma {:induction false} EventsOfHead(vs: seq<LdValue>)
    ensures |EventsOf(vs)| > 0 <==> exists i :: 0 <= i < |vs| && EventTyped(Project(vs[i]))
    ensures forall i :: 0 <= i < |vs| && EventTyped(Project(vs[i]))
              && (forall j :: 0 <= j < i ==> !EventTyped(Project(vs[j])))
              ==> EventsOf(vs)[0] == Project(vs[i]).v.obj
  {
    if vs != [] {
      EventsOfHead(vs[1..]);
      assert forall i :: 1 <= i < |vs| ==> vs[i] == vs[1..][i - 1];
      if exists i :: 0 <= i < |vs| && EventTyped(Project(vs[i])) {
        var i :| 0 <= i < |vs| && EventTyped(Project(vs[i]));
        if i > 0 && !EventTyped(Project(vs[0])) {
          assert EventTyped(Project(vs[1..][i - 1]));
        }
      }
    }
  }

  /** Selection succeeds exactly when every script parses, no projected value is
      null or undefined, and some value is Event-typed; it then yields the first. */
  lemma SelectLdEventSpec(scripts: seq<Script>)
    ensures SelectLdEvent(scripts).Ok? <==>
      && (forall i :: 0 <= i < |scripts| ==> scripts[i].Parsed?)
      && (forall i :: 0 <= i < |scripts| ==> !Nullish(Project(scripts[i].value)))
      && (exists i :: 0 <= i < |scripts| && scripts[i].Parsed? && EventTyped(Project(scripts[i].value)))
    ensures forall i :: 0 <= i < |scripts| && SelectLdEvent(scripts).Ok?
              && EventTyped(Project(scripts[i].value))
              && (forall j :: 0 <= j < i ==> !EventTyped(Project(scripts[j].value)))
              ==> SelectLdEvent(scripts).value == Project(scripts[i].value).v.obj
  {
    match ParseAll(scripts)
    case Fail(m) =>
    case Ok(vs) =>
      EventsOfHead(vs);
  }

  /** No script at all is the hard failure of a missing Event object. */
  lemma SelectLdEventNone()
    ensures SelectLdEvent([]) == Fail(NoLdEventMsg)
  {
  }
}
