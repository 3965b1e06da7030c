/**
 * The onboarding pager: three slides, an index that Next advances, and the
 * routes the screen replaces itself with.  Navigation is an output value:
 * the route passed to `router.replace`, or None.
 */
module Onboarding {
  import opened Wrappers

  /** A slide of the pager; its image is always null and is left out. */
  datatype Slide = Slide(id: nat, title: string, description: string)

  const Slides: seq<Slide> := [
    Slide(1, "Never Miss Important Dates",
          "Keep track of birthdays, anniversaries, and special occasions."),
    Slide(2, "Smart Reminders",
          "Get timely notifications and never forget to celebrate."),
    Slide(3, "Gift Ideas & Templates",
          "Find perfect gift suggestions and ready-to-use message templates.")
  ]

  const LoginRoute := "/(auth)/login"
  const TabsRoute := "/(tabs)"

  /** The index after a press and the route it navigates to, if any. */
  datatype Step = Step(index: int, route: Option<string>)

  /**
   * `handleNext` from `index`: before the last slide it advances one slide
   * and stays; otherwise it skips to login and the index stays.
   */
  function Next(index: int): (s: Step)
    ensures s.route.None? <==> index < |Slides| - 1
    ensures s.route.None? ==> s.index == index + 1
    ensures s.route.Some? ==> s.route.value == LoginRoute && s.index == index
    ensures 0 <= index < |Slides| ==> 0 <= s.index < |Slides|
  {
    if index < |Slides| - 1 then Step(index + 1, None) else Step(index, Some(LoginRoute))
  }

  /** The text of the footer button. */
  function Label(index: int): (text: string)
    ensures text == "Get Started" <==> index == |Slides| - 1
    ensures text == "Get Started" || text == "Next"
  {
    if index == |Slides| - 1 then "Get Started" else "Next"
  }

  /** The auth listener: a signed-in user goes to the tabs, no user stays. */
  function AuthRedirect<User>(user: Option<User>): (route: Option<string>)
    ensures route.Some? <==> user.Some?
    ensures route.Some? ==> route.value == TabsRoute
  {
    if user.Some? then Some(TabsRoute) else None
  }

  /** The index after `k` presses of Next starting from `index`. */
  function AfterPresses(index: int, k: nat): int
    decreases k
  {
    if k == 0 then index else AfterPresses(Next(index).index, k - 1)
  }

  function Min(a: int, b: int): int {
    if a <= b then a else b
  }

  /** Pressing Next from a slide climbs one slide a press and stops at the last. */
  lemma {:induction false} PressesClimbToLast(index: int, k: nat)
    requires 0 <= index < |Slides|
    ensures AfterPresses(index, k) == Min(index + k, |Slides| - 1)
    decreases k
  {
    if k > 0 {
      PressesClimbToLast(Next(index).index, k - 1);
    }
  }

  /**
   * From the first slide, any number of presses keeps the index on a slide;
   * the label reads "Get Started" exactly from the second press on, and the
   * next press navigates to login exactly then.
   */
  lemma PressesFromStart(k: nat)
    ensures 0 <= AfterPresses(0, k) < |Slides|
    ensures Label(AfterPresses(0, k)) == "Get Started" <==> k >= |Slides| - 1
    ensures Next(AfterPresses(0, k)).route == Some(LoginRoute) <==> k >= |Slides| - 1
  {
    PressesClimbToLast(0, k);
  }

  class OnboardingScreen {
    var currentIndex: int

    /** The index names one of the slides. */
    ghost predicate Valid()
      reads this
    {
      0 <= currentIndex < |Slides|
    }

    constructor ()
      ensures Valid() && currentIndex == 0 && |Slides| == 3
    {
      currentIndex := 0;
    }

    /** `handleSkip`: to login, from any slide. */
    method HandleSkip() returns (route: Option<string>)
      ensures route == Some(LoginRoute)
    {
      route := Some(LoginRoute);
    }

    /** `handleNext`: advance, or on the last slide do what Skip does. */
    method HandleNext() returns (route: Option<string>)
      modifies this
      ensures currentIndex == Next(old(currentIndex)).index
      ensures route == Next(old(currentIndex)).route
      ensures old(Valid()) ==> Valid()
    {
      if currentIndex < |Slides| - 1 {
        currentIndex := currentIndex + 1;
        route := None;
      } else {
        route := HandleSkip();
      }
    }
  }
}
