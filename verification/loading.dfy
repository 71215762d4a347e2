/**
 * The two ways the scrapers wait for a listing page to show every product.
 * The browser is an oracle: a scroll loop reads a page height after each END
 * key press, a click loop learns how each "load more" attempt went.
 */
module Loading {

  // ---------------------------------------------------------------------------
  // Scroll until the page height stops growing
  // ---------------------------------------------------------------------------

  /** The height the loop compares reading `j` with: the initial height, or reading `j - 1`. */
  function Previous(initial: int, readings: seq<int>, j: nat): int
    requires j < |readings|
  {
    if j == 0 then initial else readings[j - 1]
  }

  /** Reading `j` equals the height before it, which ends the loop. */
  predicate Repeats(initial: int, readings: seq<int>, j: nat)
    requires j < |readings|
  {
    readings[j] == Previous(initial, readings, j)
  }

  /** The index of the first repeated reading, at or after `from`; `|readings|` when none repeats. */
  function FirstRepeatFrom(initial: int, readings: seq<int>, from: nat): (k: nat)
    requires from <= |readings|
    ensures from <= k <= |readings|
    decreases |readings| - from
  {
    if from == |readings| then from
    else if Repeats(initial, readings, from) then from
    else FirstRepeatFrom(initial, readings, from + 1)
  }

  function FirstRepeat(initial: int, readings: seq<int>): (k: nat)
    ensures k <= |readings|
  {
    FirstRepeatFrom(initial, readings, 0)
  }

  /** `FirstRepeat` is the least index whose reading repeats, or `|readings|` if there is none. */
  lemma {:induction false} FirstRepeatFromIsLeast(initial: int, readings: seq<int>, from: nat)
    requires from <= |readings|
    requires forall j | 0 <= j < from :: !Repeats(initial, readings, j)
    ensures FirstRepeatFrom(initial, readings, from) <= |readings|
    ensures forall j | 0 <= j < FirstRepeatFrom(initial, readings, from) :: !Repeats(initial, readings, j)
    ensures FirstRepeatFrom(initial, readings, from) < |readings| ==>
              Repeats(initial, readings, FirstRepeatFrom(initial, readings, from))
    decreases |readings| - from
  {
    if from < |readings| && !Repeats(initial, readings, from) {
      FirstRepeatFromIsLeast(initial, readings, from + 1);
    }
  }

  lemma FirstRepeatIsLeast(initial: int, readings: seq<int>)
    ensures FirstRepeat(initial, readings) <= |readings|
    ensures forall j | 0 <= j < FirstRepeat(initial, readings) :: !Repeats(initial, readings, j)
    ensures FirstRepeat(initial, readings) < |readings| ==>
              Repeats(initial, readings, FirstRepeat(initial, readings))
  {
    FirstRepeatFromIsLeast(initial, readings, 0);
  }

  /**
   * The scroll loop: remember the page height, then press END and read the
   * height again until a reading equals the one before it. The loop reads at
   * most `|readings|` heights; when they run out without a repeat (`settled`
   * false) the real page would be read again.
   */
  method ScrollUntilStable(initial: int, readings: seq<int>) returns (lastHeight: int, presses: nat, settled: bool)
    ensures settled <==> FirstRepeat(initial, readings) < |readings|
    ensures presses == if settled then FirstRepeat(initial, readings) + 1 else |readings|
    ensures presses == 0 ==> lastHeight == initial
    ensures presses > 0 ==> lastHeight == readings[presses - 1]
  {
    FirstRepeatIsLeast(initial, readings);
    lastHeight, presses, settled := initial, 0, false;
    while presses < |readings| && !settled
      invariant presses <= |readings|
      invariant lastHeight == if presses == 0 then initial else readings[presses - 1]
      invariant !settled ==> presses <= FirstRepeat(initial, readings)
      invariant settled ==> presses > 0 && presses - 1 == FirstRepeat(initial, readings)
    {
      // one END key press, then one height reading
      assert lastHeight == Previous(initial, readings, presses);
      var newHeight := readings[presses];
      presses := presses + 1;
      if newHeight == lastHeight {
        assert Repeats(initial, readings, presses - 1);
        settled := true;
      } else {
        lastHeight := newHeight;
      }
    }
  }

  /** Once the loop settles, the height it keeps is the final reading and equals the one before. */
  lemma SettledHeightIsFinal(initial: int, readings: seq<int>)
    requires FirstRepeat(initial, readings) < |readings|
    ensures readings[FirstRepeat(initial, readings)]
            == Previous(initial, readings, FirstRepeat(initial, readings))
  {
    FirstRepeatIsLeast(initial, readings);
  }

  /**
   * A page whose height never shrinks and never exceeds `cap` settles: the
   * loop stops after at most `cap - initial + 1` END presses.
   */
  lemma {:induction false} BoundedGrowthSettles(initial: int, readings: seq<int>, cap: int)
    requires forall j | 0 <= j < |readings| :: Previous(initial, readings, j) <= readings[j] <= cap
    requires initial <= cap
    requires |readings| > cap - initial
    ensures FirstRepeat(initial, readings) <= cap - initial
  {
    FirstRepeatIsLeast(initial, readings);
    var k := FirstRepeat(initial, readings);
    if k > cap - initial {
      GrowthBeforeRepeat(initial, readings, cap - initial);
      assert false;
    }
  }

  /** Before the first repeat the heights strictly grow, so reading `m` is at least `initial + m + 1`. */
  lemma {:induction false} GrowthBeforeRepeat(initial: int, readings: seq<int>, m: nat)
    requires m < |readings|
    requires forall j | 0 <= j <= m :: Previous(initial, readings, j) <= readings[j] && !Repeats(initial, readings, j)
    ensures readings[m] >= initial + m + 1
  {
    if m > 0 {
      GrowthBeforeRepeat(initial, readings, m - 1);
    }
  }

  // ---------------------------------------------------------------------------
  // Click "load more" until something fails
  // ---------------------------------------------------------------------------

  /** How one iteration of `load_all_products` went. */
  datatype Attempt =
    | Clicked              // scrolled, the button became clickable, it was clicked
    | ScrollFailed         // the scroll script raised
    | ButtonNotClickable   // waiting for the clickable button timed out or raised
    | ClickFailed          // the click script raised

  /** The browser commands an iteration issues. */
  datatype Command = ScrollToBottom | AwaitButton | ClickButton

  function CommandsOf(a: Attempt): seq<Command> {
    match a
    case ScrollFailed => [ScrollToBottom]
    case ButtonNotClickable => [ScrollToBottom, AwaitButton]
    case _ => [ScrollToBottom, AwaitButton, ClickButton]
  }

  function Issued(attempts: seq<Attempt>): seq<Command> {
    if attempts == [] then [] else Issued(attempts[..|attempts| - 1]) + CommandsOf(attempts[|attempts| - 1])
  }

  /** The number of attempts before the first one that is not a click. */
  function LeadingClicks(attempts: seq<Attempt>): (n: nat)
    ensures n <= |attempts|
    ensures forall j | 0 <= j < n :: attempts[j] == Clicked
    ensures n < |attempts| ==> attempts[n] != Clicked
  {
    if attempts == [] || attempts[0] != Clicked then 0 else 1 + LeadingClicks(attempts[1..])
  }

  /**
   * `load_all_products`: scroll to the bottom, wait for the "load more"
   * button to be clickable and click it, again and again until any of those
   * steps raises, which ends the loop. It never raises itself; `ended` is
   * false only when the attempts ran out while every one had succeeded.
   */
  method LoadAllProducts(attempts: seq<Attempt>) returns (clicks: nat, ended: bool, issued: seq<Command>)
    ensures clicks == LeadingClicks(attempts)
    ensures ended <==> clicks < |attempts|
    ensures issued == Issued(attempts[..if ended then clicks + 1 else clicks])
  {
    clicks, ended, issued := 0, false, [];
    while clicks < |attempts| && !ended
      invariant clicks <= |attempts|
      decreases |attempts| - clicks, if ended then 0 else 1
      invariant forall j | 0 <= j < clicks :: attempts[j] == Clicked
      invariant ended ==> clicks < |attempts| && attempts[clicks] != Clicked
      invariant issued == Issued(attempts[..if ended then clicks + 1 else clicks])
    {
      var attempt := attempts[clicks];
      assert attempts[..clicks + 1][..clicks] == attempts[..clicks];
      issued := issued + CommandsOf(attempt);
      if attempt == Clicked {
        clicks := clicks + 1;
      } else {
        ended := true;
      }
    }
    LeadingClicksIsCount(attempts, clicks);
  }

  lemma {:induction false} LeadingClicksIsCount(attempts: seq<Attempt>, n: nat)
    requires n <= |attempts|
    requires forall j | 0 <= j < n :: attempts[j] == Clicked
    requires n < |attempts| ==> attempts[n] != Clicked
    ensures LeadingClicks(attempts) == n
  {
    if n > 0 {
      LeadingClicksIsCount(attempts[1..], n - 1);
    }
  }

  function CountClicks(commands: seq<Command>): nat {
    if commands == [] then 0
    else (if commands[0] == ClickButton then 1 else 0) + CountClicks(commands[1..])
  }

  lemma {:induction false} CountClicksAppend(a: seq<Command>, b: seq<Command>)
    ensures CountClicks(a + b) == CountClicks(a) + CountClicks(b)
  {
    if a != [] {
      assert (a + b)[1..] == a[1..] + b;
      CountClicksAppend(a[1..], b);
    } else {
      assert a + b == b;
    }
  }

  /**
   * Every iteration begins with a scroll; the clicks that succeeded are the
   * leading ones, and the button is clicked once more only when that last
   * click is the one that raised.
   */
  lemma {:induction false} IssuedShape(attempts: seq<Attempt>)
    requires forall j | 0 <= j < |attempts| - 1 :: attempts[j] == Clicked
    ensures |Issued(attempts)| == 3 * |attempts| - (if attempts == [] then 0 else 3 - |CommandsOf(attempts[|attempts| - 1])|)
    ensures CountClicks(Issued(attempts))
            == |attempts| - (if attempts != [] && attempts[|attempts| - 1] in {ScrollFailed, ButtonNotClickable} then 1 else 0)
  {
    if attempts != [] {
      var init := attempts[..|attempts| - 1];
      AllClickedIssued(init);
      CountClicksAppend(Issued(init), CommandsOf(attempts[|attempts| - 1]));
      CommandsOfClicks(attempts[|attempts| - 1]);
    }
  }

  lemma {:induction false} AllClickedIssued(attempts: seq<Attempt>)
    requires forall j | 0 <= j < |attempts| :: attempts[j] == Clicked
    ensures |Issued(attempts)| == 3 * |attempts|
    ensures CountClicks(Issued(attempts)) == |attempts|
  {
    if attempts != [] {
      var init := attempts[..|attempts| - 1];
      AllClickedIssued(init);
      CountClicksAppend(Issued(init), CommandsOf(Clicked));
      CommandsOfClicks(Clicked);
    }
  }

  lemma CommandsOfClicks(a: Attempt)
    ensures CountClicks(CommandsOf(a)) == if a in {ScrollFailed, ButtonNotClickable} then 0 else 1
  {
    assert CountClicks([ClickButton]) == 1;
    assert CountClicks([AwaitButton, ClickButton]) == 1;
    assert CountClicks([AwaitButton]) == 0;
  }
}
