/**
 * Error-message extraction of the API client (`ApiService.extractErrorMessage`
 * in src/services/api.ts) and the two places that use it: the message built
 * from a failed response's body and the message a `catch` block rethrows.
 */
module ApiErrors {
  import opened Joining
  import opened JsValues

  /**
   * `extractErrorMessage(error)`. A string is returned as it is; an array
   * gives one segment per element joined with ", "; an object's truthy `msg`
   * wins over its `detail`, a truthy `detail` is searched recursively, and
   * everything else is `String(error)`. Reading `msg` from a `null` (the
   * value itself or an array element) throws a TypeError, because
   * `typeof null === 'object'`.
   *
   * The `msg` value is returned as it is in the source; the only consumer is
   * `new Error(...)`, which converts it with String(), so the model returns
   * that string directly.
   */
  function ExtractErrorMessage(error: Value): (r: Completion<string>)
    ensures error.Str? ==> r == Normal(error.s)
    ensures r.Throw? <==> ExposesNull(error)
    ensures r.Throw? ==> IsTypeError(r.thrown)
    ensures error.Obj? && Truthy(Lookup(error.props, "msg")) ==>
              r == Normal(ToStr(Lookup(error.props, "msg")))
    ensures !IsObjectType(error) && !error.Str? ==> r == Normal(ToStr(error))
    ensures error.ErrorObj? ==> r == Normal(ToStr(error))
    decreases error
  {
    match error
    case Str(s) => Normal(s)
    case Arr(items) =>
      (match Segments(items)
       case Throw(t) => Throw(t)
       case Normal(parts) => Normal(JoinWith(parts, ", ")))
    case Null => Throw(Get(error, "msg").thrown)
    case Obj(props) =>
      var m := Lookup(props, "msg");
      if Truthy(m) then Normal(ToStr(m))
      else
        var d := Lookup(props, "detail");
        if Truthy(d) then ExtractErrorMessage(d) else Normal(ToStr(error))
    case ErrorObj(_, _) =>
      // an Error object has neither `msg` nor `detail`
      Normal(ToStr(error))
    case _ =>
      // `undefined`, booleans and numbers are not objects
      Normal(ToStr(error))
  }

  /** The callback of `error.map(...)`: an object's truthy `msg`, else `String(err)`. */
  function Segment(err: Value): (r: Completion<string>)
    ensures r.Throw? <==> err.Null?
    ensures r.Throw? ==> IsTypeError(r.thrown)
  {
    if IsObjectType(err) then
      match Get(err, "msg")
      case Throw(t) => Throw(t)
      case Normal(m) => Normal(if Truthy(m) then ToStr(m) else ToStr(err))
    else Normal(ToStr(err))
  }

  /** `error.map(...)`: the elements in order; the first element that throws ends the map. */
  function Segments(items: seq<Value>): (r: Completion<seq<string>>)
    ensures r.Throw? <==> Null in items
    ensures r.Throw? ==> IsTypeError(r.thrown)
    ensures r.Normal? ==> |r.value| == |items|
  {
    if items == [] then Normal([])
    else
      match Segment(items[0])
      case Throw(t) => Throw(t)
      case Normal(first) =>
        match Segments(items[1..])
        case Throw(t) => Throw(t)
        case Normal(rest) => Normal([first] + rest)
  }

  /**
   * When extraction throws, stated without following the code: a `null` is
   * reached where a property is read, either the value itself, an array
   * element, or the end of a chain of `detail`s that are not shadowed by a
   * truthy `msg`.
   */
  predicate ExposesNull(v: Value)
    decreases v
  {
    match v
    case Null => true
    case Arr(items) => Null in items
    case Obj(props) =>
      !Truthy(Lookup(props, "msg")) && Truthy(Lookup(props, "detail")) &&
      ExposesNull(Lookup(props, "detail"))
    case _ => false
  }

  /** The text one array element contributes, for an element that is not `null`. */
  function ElementText(e: Value): string
  {
    if e.Obj? && Truthy(Lookup(e.props, "msg")) then ToStr(Lookup(e.props, "msg")) else ToStr(e)
  }

  /** The texts of an array's elements, one per element, in order. */
  function ElementTexts(items: seq<Value>): (r: seq<string>)
    ensures |r| == |items|
    ensures forall i :: 0 <= i < |items| ==> r[i] == ElementText(items[i])
  {
    if items == [] then [] else [ElementText(items[0])] + ElementTexts(items[1..])
  }

  /** An array without `null`s gives its elements' texts, in order, joined with ", ". */
  lemma {:induction false} ExtractArrayJoinsElements(items: seq<Value>)
    requires Null !in items
    ensures ExtractErrorMessage(Arr(items)) == Normal(JoinWith(ElementTexts(items), ", "))
  {
    SegmentsAreElementTexts(items);
  }

  lemma {:induction false} SegmentsAreElementTexts(items: seq<Value>)
    requires Null !in items
    ensures Segments(items) == Normal(ElementTexts(items))
  {
    if items != [] {
      assert items[0] in items;
      SegmentIsElementText(items[0]);
      assert Null !in items[1..] by {
        forall k | 0 <= k < |items[1..]| ensures items[1..][k] != Null {
          assert items[1..][k] == items[k + 1];
        }
      }
      SegmentsAreElementTexts(items[1..]);
    }
  }

  lemma SegmentIsElementText(e: Value)
    requires e != Null
    ensures Segment(e) == Normal(ElementText(e))
  {
  }

  /** An object without a truthy `msg` but with a truthy `detail` gives the message of its `detail`. */
  lemma ExtractFollowsDetail(props: seq<Prop>)
    requires !Truthy(Lookup(props, "msg")) && Truthy(Lookup(props, "detail"))
    ensures ExtractErrorMessage(Obj(props)) == ExtractErrorMessage(Lookup(props, "detail"))
  {
  }

  /** An object with neither a truthy `msg` nor a truthy `detail` falls back to `String(error)`. */
  lemma ExtractPlainObject(props: seq<Prop>)
    requires !Truthy(Lookup(props, "msg")) && !Truthy(Lookup(props, "detail"))
    ensures ExtractErrorMessage(Obj(props)) == Normal("[object Object]")
  {
  }

  /** `{detail: v}` nested `depth` times around `v`. */
  function WrapInDetail(v: Value, depth: nat): Value
  {
    if depth == 0 then v else Obj([Prop("detail", WrapInDetail(v, depth - 1))])
  }

  /** Any number of `detail` wrappers around a truthy value give that value's message. */
  lemma {:induction false} ExtractSeesThroughDetail(v: Value, depth: nat)
    requires Truthy(v)
    ensures ExtractErrorMessage(WrapInDetail(v, depth)) == ExtractErrorMessage(v)
  {
    if depth > 0 {
      ExtractSeesThroughDetail(v, depth - 1);
      var inner := WrapInDetail(v, depth - 1);
      assert Truthy(inner) by { if depth > 1 { } }
      assert Lookup([Prop("detail", inner)], "msg") == Undefined;
    }
  }

  /** An array of a string and a `msg` object gives both texts joined with ", ". */
  lemma ExtractArrayExample()
    ensures ExtractErrorMessage(Arr([Str("bad"), Obj([Prop("msg", Str("bad2"))])])) == Normal("bad, bad2")
  {
    var items := [Str("bad"), Obj([Prop("msg", Str("bad2"))])];
    ExtractArrayJoinsElements(items);
    assert ElementTexts(items) == ["bad", "bad2"];
    assert JoinWith(["bad", "bad2"], ", ") == "bad" + ", " + "bad2" == "bad, bad2";
  }

  /** A `msg` inside a `detail` is found. */
  lemma ExtractDetailExample()
    ensures ExtractErrorMessage(Obj([Prop("detail", Obj([Prop("msg", Str("x"))]))])) == Normal("x")
  {
  }

  /** A number is converted with String(). */
  lemma ExtractNumberExample()
    ensures ExtractErrorMessage(Num(42)) == Normal("42")
  {
    assert NatToDecimal(42) == NatToDecimal(4) + [DigitChar(2)];
    assert IntToDecimal(42) == "42";
  }

  /**
   * `this.extractErrorMessage(errorData.detail || errorData || fallback)`:
   * the message taken from a failed response's JSON body (lines 69 and 283).
   */
  function ServerErrorMessage(errorData: Value, fallback: string): (r: Completion<string>)
    ensures errorData.Null? ==> r.Throw? && IsTypeError(r.thrown)
    ensures errorData.Obj? && Truthy(Lookup(errorData.props, "detail")) ==>
              r == ExtractErrorMessage(Lookup(errorData.props, "detail"))
    ensures Truthy(errorData) && !(errorData.Obj? && Truthy(Lookup(errorData.props, "detail"))) ==>
              r == ExtractErrorMessage(errorData)
    ensures !errorData.Null? && !errorData.Undefined? && !Truthy(errorData) ==> r == Normal(fallback)
  {
    match Get(errorData, "detail")
    case Throw(t) => Throw(t)
    case Normal(d) =>
      ExtractErrorMessage(if Truthy(d) then d else if Truthy(errorData) then errorData else Str(fallback))
  }

  /**
   * What a `catch (error) { throw new Error(this.extractErrorMessage(error)) }`
   * block throws: a new Error carrying the extracted message, or the TypeError
   * the extraction itself throws.
   */
  function Rethrown(error: Value): (r: Value)
    ensures r.ErrorObj?
    ensures error.ErrorObj? ==> r == NewError(ErrorToString(error.name, error.message))
  {
    match ExtractErrorMessage(error)
    case Normal(m) => NewError(m)
    case Throw(t) => t
  }

  /** A rethrown TypeError becomes an Error whose message starts with "TypeError: ". */
  lemma RethrownTypeError(message: string)
    requires message != ""
    ensures Rethrown(ErrorObj("TypeError", message)) == NewError("TypeError: " + message)
  {
  }

  /** Each such `catch` layer puts "Error: " in front of an Error's message. */
  lemma RethrownPrefixesName(message: string)
    requires message != ""
    ensures Rethrown(NewError(message)) == NewError("Error: " + message)
  {
  }
}
