/**
  The action helper: the anchor points of an element's bounding box, a tap
  at an element's centre, and key presses sent one code at a time. The remote
  driver is reduced to what these actions change: an append-only log of the
  key codes pressed and one of the points tapped.
 */
module Action {
  import opened Wrappers
  import Helpers

  /** Android key code of the enter key. */
  const EnterKeycode := 66
  /** Android key code of the back key. */
  const BackKeycode := 4

  datatype Point = Point(x: int, y: int)

  /** An element's `location` (x, y) and `size` (width, height) as the driver reports them. */
  datatype Bounds = Bounds(x: int, y: int, width: int, height: int)

  /** The nine named points of `_calculate_element_points`: corners, edge midpoints and centre. */
  datatype ElementPoints = ElementPoints(
    topLeft: Point, topMid: Point, topRight: Point,
    leftMid: Point, mid: Point, rightMid: Point,
    bottomLeft: Point, bottomMid: Point, bottomRight: Point)
  {
    function Anchors(): seq<Point> {
      [topLeft, topMid, topRight, leftMid, mid, rightMid, bottomLeft, bottomMid, bottomRight]
    }
  }

  /** How elements are located: a strategy and a selector. */
  datatype Locator = Locator(strategy: string, selector: string)

  predicate Inside(p: Point, b: Bounds) {
    b.x <= p.x <= b.x + b.width && b.y <= p.y <= b.y + b.height
  }

  /**
    `m` is Python's `n // 2`: the largest integer whose double does not exceed
    `n`, for negative `n` as well.
   */
  predicate IsFloorHalf(m: int, n: int) {
    2 * m <= n < 2 * m + 2
  }

  /**
    The anchor points of an element. The width and height are halved with
    floor division, which Dafny's `/` by 2 is on every integer.
   */
  function CalculateElementPoints(b: Bounds): (p: ElementPoints)
    // the four corners
    ensures p.topLeft == Point(b.x, b.y) && p.topRight == Point(b.x + b.width, b.y)
    ensures p.bottomLeft == Point(b.x, b.y + b.height) && p.bottomRight == Point(b.x + b.width, b.y + b.height)
    // rows: top points share y, bottom points share y + height, the middle row shares the centre
    ensures p.topMid.y == p.topRight.y == p.topLeft.y == b.y
    ensures p.bottomMid.y == p.bottomRight.y == p.bottomLeft.y == b.y + b.height
    ensures p.leftMid.y == p.mid.y == p.rightMid.y && IsFloorHalf(p.mid.y - b.y, b.height)
    // columns: left points share x, right points share x + width, the middle column shares the centre
    ensures p.leftMid.x == p.bottomLeft.x == p.topLeft.x == b.x
    ensures p.rightMid.x == p.bottomRight.x == p.topRight.x == b.x + b.width
    ensures p.topMid.x == p.mid.x == p.bottomMid.x && IsFloorHalf(p.mid.x - b.x, b.width)
    // a box of non-negative size contains all nine
    ensures b.width >= 0 && b.height >= 0 ==>
      forall i :: 0 <= i < |p.Anchors()| ==> Inside(p.Anchors()[i], b)
  {
    var x, y, w, h := b.x, b.y, b.width, b.height;
    ElementPoints(
      Point(x, y), Point(x + w / 2, y), Point(x + w, y),
      Point(x, y + h / 2), Point(x + w / 2, y + h / 2), Point(x + w, y + h / 2),
      Point(x, y + h), Point(x + w / 2, y + h), Point(x + w, y + h))
  }

  /** The halving of a negative size rounds down, as Python's `//` does: a width of -3 puts the centre at x - 2. */
  lemma NegativeWidthRoundsDown(x: int, y: int)
    ensures CalculateElementPoints(Bounds(x, y, -3, 5)).mid == Point(x - 2, y + 2)
  {
  }

  /**
    The remote driver as the actions see it: the bounds of the element each
    locator finds, and the logs of key codes pressed and points tapped.
   */
  class Driver {
    const elements: map<Locator, Bounds>
    var keyLog: seq<int>
    var tapLog: seq<Point>

    constructor (elements: map<Locator, Bounds>)
      ensures this.elements == elements && keyLog == [] && tapLog == []
    {
      this.elements := elements;
      keyLog, tapLog := [], [];
    }

    /** `press_keycode`: one key press. */
    method PressKeycode(code: int)
      modifies this
      ensures keyLog == old(keyLog) + [code] && tapLog == old(tapLog)
    {
      keyLog := keyLog + [code];
    }

    /** A touch held at one point and released. */
    method Tap(p: Point)
      modifies this
      ensures tapLog == old(tapLog) + [p] && keyLog == old(keyLog)
    {
      tapLog := tapLog + [p];
    }

    /** `find_element`: the bounds of the element the locator finds, or none when there is no such element. */
    method FindElement(loc: Locator) returns (r: Option<Bounds>)
      ensures r.Some? <==> loc in elements
      ensures r.Some? ==> r.value == elements[loc]
    {
      if loc in elements {
        r := Some(elements[loc]);
      } else {
        r := None;
      }
    }
  }

  class Action {
    const driver: Driver

    constructor (driver: Driver)
      ensures this.driver == driver
    {
      this.driver := driver;
    }

    method SendKeycode(code: int)
      modifies driver
      ensures driver.keyLog == old(driver.keyLog) + [code]
      ensures driver.tapLog == old(driver.tapLog)
    {
      driver.PressKeycode(code);
    }

    /**
      Converts `value` and presses its codes in order, one press per code;
      when the conversion fails, nothing is pressed and its error is raised.
     */
    method SendKeycodes(value: string) returns (r: Outcome<Helpers.KeyMapError>)
      modifies driver
      ensures Helpers.Encode(value).Success? ==>
        r.Pass? && driver.keyLog == old(driver.keyLog) + Helpers.Encode(value).value
      ensures Helpers.Encode(value).Failure? ==>
        r == Fail(Helpers.Encode(value).error) && driver.keyLog == old(driver.keyLog)
      ensures driver.tapLog == old(driver.tapLog)
    {
      var converted := Helpers.ConvertStringToNativeKey(value);
      if converted.Failure? {
        return Fail(converted.error);
      }
      var codes := converted.value;
      for i := 0 to |codes|
        invariant driver.keyLog == old(driver.keyLog) + codes[..i]
        invariant driver.tapLog == old(driver.tapLog)
      {
        SendKeycode(codes[i]);
        assert codes[..i + 1] == codes[..i] + [codes[i]];
      }
      assert codes[..|codes|] == codes;
      return Pass;
    }

    method SendEnterKey()
      modifies driver
      ensures driver.keyLog == old(driver.keyLog) + [EnterKeycode]
      ensures driver.tapLog == old(driver.tapLog)
    {
      SendKeycode(EnterKeycode);
    }

    method SendBackKey()
      modifies driver
      ensures driver.keyLog == old(driver.keyLog) + [BackKeycode]
      ensures driver.tapLog == old(driver.tapLog)
    {
      SendKeycode(BackKeycode);
    }

    /**
      Locates the element and taps once at its `mid` anchor; when no element
      matches, nothing is tapped and the locator is reported.
     */
    method ClickElementCentre(loc: Locator) returns (r: Outcome<Locator>)
      modifies driver
      ensures loc in driver.elements ==>
        r.Pass? && driver.tapLog == old(driver.tapLog) + [CalculateElementPoints(driver.elements[loc]).mid]
      ensures loc !in driver.elements ==>
        r == Fail(loc) && driver.tapLog == old(driver.tapLog)
      ensures driver.keyLog == old(driver.keyLog)
    {
      var element := driver.FindElement(loc);
      if element.None? {
        return Fail(loc);
      }
      var points := CalculateElementPoints(element.value);
      driver.Tap(points.mid);
      return Pass;
    }
  }

  /**
    The keypad part of setting the planted date on the plant screen: the
    date's codes, then enter. A date the table cannot encode raises before
    anything is pressed, so enter is not pressed either.
   */
  method EnterDate(action: Action, date: string) returns (r: Outcome<Helpers.KeyMapError>)
    modifies action.driver
    ensures Helpers.Encode(date).Success? ==>
      r.Pass? && action.driver.keyLog == old(action.driver.keyLog) + Helpers.Encode(date).value + [EnterKeycode]
    ensures Helpers.Encode(date).Failure? ==>
      r == Fail(Helpers.Encode(date).error) && action.driver.keyLog == old(action.driver.keyLog)
    ensures action.driver.tapLog == old(action.driver.tapLog)
  {
    r := action.SendKeycodes(date);
    if r.Fail? {
      return;
    }
    action.SendEnterKey();
  }

  /** For the sample date "06/01/2024" the driver receives the codes of 0 6 / 0 1 / 2 0 2 4, then 66. */
  method EnterSampleDate(action: Action)
    modifies action.driver
    ensures action.driver.keyLog == old(action.driver.keyLog) + [7, 13, 76, 7, 8, 76, 9, 7, 9, 11, 66]
    ensures action.driver.tapLog == old(action.driver.tapLog)
  {
    Helpers.EncodeOfDate();
    var r := EnterDate(action, "06/01/2024");
  }
}
