// src/components/DeliveryAccessModal.tsx: the delivery-access questionnaire.
// The component's state variables are the fields of a class and its
// handlers are methods.  React applies a handler's state updates after the
// handler returns, and the handler reads the values of the render it was
// created in; each method reads the fields before it assigns any.  The
// `onSelect` callback is recorded as the list of strings it received.

module DeliveryAccessModal {
  import opened Wrappers
  import opened Text

  const LiftAccess := "Lift access"
  const GroundFloor := "Ground floor"
  const FewSteps := "Few steps"
  const StairsNoHelp := "Stairs no help"
  const OfStairs := " of stairs"

  /** The answers gathered so far; `None` is an unanswered question (null). */
  datatype Answers = Answers(
    hasStairs: Option<bool>,
    hasLift: Option<bool>,
    stairsType: Option<string>,
    flightCount: Option<string>,
    canHelp: Option<bool>)

  const NoAnswers := Answers(None, None, None, None, None)

  /** JavaScript truthiness of a nullable boolean. */
  predicate Truthy(b: Option<bool>) { b == Some(true) }

  /** A nullable string inside a template literal: null prints as "null". */
  function ShowNullable(s: Option<string>): string
  {
    match s
    case None => "null"
    case Some(v) => v
  }

  /**
   * The access a set of answers describes: with stairs and no help the
   * stairs-no-help surcharge case; without stairs the lift or the ground
   * floor; with stairs the kind of stairs, or nothing when it is unknown.
   */
  function Decision(a: Answers): string
  {
    if Truthy(a.hasStairs) && a.canHelp == Some(false) then StairsNoHelp
    else if !Truthy(a.hasStairs) then (if Truthy(a.hasLift) then LiftAccess else GroundFloor)
    else if a.stairsType == Some("few") then FewSteps
    else if a.stairsType == Some("flight") then ShowNullable(a.flightCount) + OfStairs
    else ""
  }

  /** The outcomes of a questionnaire without stairs (false or unanswered). */
  lemma NoStairsDecision(a: Answers)
    requires !Truthy(a.hasStairs)
    ensures Decision(a) == (if Truthy(a.hasLift) then LiftAccess else GroundFloor)
  {
  }

  /** With stairs and help available or unanswered, the kind of stairs decides. */
  lemma StairsDecision(a: Answers)
    requires Truthy(a.hasStairs) && a.canHelp != Some(false)
    ensures a.stairsType == Some("few") ==> Decision(a) == FewSteps
    ensures a.stairsType == Some("flight") ==> Decision(a) == ShowNullable(a.flightCount) + OfStairs
    ensures a.stairsType.None? ==> Decision(a) == ""
  {
  }

  /** "Stairs no help" is the answer exactly when there are stairs and help was refused. */
  lemma {:induction false} NoHelpExactly(a: Answers)
    ensures Decision(a) == StairsNoHelp <==> Truthy(a.hasStairs) && a.canHelp == Some(false)
  {
    if !(Truthy(a.hasStairs) && a.canHelp == Some(false)) && Truthy(a.hasStairs) &&
       a.stairsType != Some("few") && a.stairsType == Some("flight") {
      var d := ShowNullable(a.flightCount) + OfStairs;
      assert d[|d| - 1] == 's';
      assert StairsNoHelp[|StairsNoHelp| - 1] == 'p';
    }
  }

  /** The answers of an unanswered help question, after "No" has been clicked at step 3. */
  function RefuseHelp(a: Answers): Answers { a.(canHelp := Some(false)) }

  /** The answers of an unanswered lift question, after "Yes" has been clicked at step 4. */
  function ConfirmLift(a: Answers): Answers { a.(hasLift := Some(true)) }

  class Questionnaire {
    var step: int
    var hasStairs: Option<bool>
    var hasLift: Option<bool>
    var stairsType: Option<string>
    var flightCount: Option<string>
    var canHelp: Option<bool>
    var visitedSteps: set<int>
    /** Every string handed to `onSelect`, oldest first. */
    var selections: seq<string>

    function CurrentAnswers(): Answers
      reads this
    {
      Answers(hasStairs, hasLift, stairsType, flightCount, canHelp)
    }

    /**
     * The help and lift answers are never seen by a later handler: the
     * only handlers that set them complete and reset in the same update.
     */
    predicate NoPendingAnswers()
      reads this
    {
      canHelp.None? && hasLift.None?
    }

    predicate IsReset()
      reads this
    {
      step == 1 && CurrentAnswers() == NoAnswers && visitedSteps == {1}
    }

    constructor()
      ensures IsReset() && selections == []
    {
      step := 1;
      hasStairs, hasLift, stairsType, flightCount, canHelp := None, None, None, None, None;
      visitedSteps := {1};
      selections := [];
    }

    /** `handleReset`: step 1, every answer null, only step 1 visited. */
    method Reset()
      modifies this
      ensures IsReset() && NoPendingAnswers()
      ensures selections == old(selections)
    {
      step := 1;
      hasStairs, hasLift, stairsType, flightCount, canHelp := None, None, None, None, None;
      visitedSteps := {1};
    }

    /** `goToStep(n)`: moves to the step and adds it to the visited steps, which never shrink. */
    method GoToStep(n: int)
      modifies this
      ensures step == n && visitedSteps == old(visitedSteps) + {n}
      ensures old(visitedSteps) <= visitedSteps
      ensures CurrentAnswers() == old(CurrentAnswers()) && selections == old(selections)
    {
      step := n;
      visitedSteps := visitedSteps + {n};
    }

    /** The step navigator and the Back buttons: the step changes and nothing is marked visited. */
    method SetStep(n: int)
      modifies this
      ensures step == n && visitedSteps == old(visitedSteps)
      ensures CurrentAnswers() == old(CurrentAnswers()) && selections == old(selections)
    {
      step := n;
    }

    /** Step 1's "Yes" goes to the kind of stairs (step 2), "No" to the lift question (step 4). */
    method AnswerStairs(yes: bool)
      modifies this
      ensures hasStairs == Some(yes) && step == (if yes then 2 else 4)
      ensures visitedSteps == old(visitedSteps) + {step}
      ensures hasLift == old(hasLift) && stairsType == old(stairsType)
      ensures flightCount == old(flightCount) && canHelp == old(canHelp) && selections == old(selections)
    {
      hasStairs := Some(yes);
      GoToStep(if yes then 2 else 4);
    }

    /** Step 2: a few steps go on to the help question (step 3), a flight to the flight count (step 5); both imply stairs. */
    method ChooseStairsType(kind: string)
      requires kind == "few" || kind == "flight"
      modifies this
      ensures stairsType == Some(kind) && Truthy(hasStairs)
      ensures step == (if kind == "few" then 3 else 5)
      ensures visitedSteps == old(visitedSteps) + {step}
      ensures hasLift == old(hasLift) && flightCount == old(flightCount) && canHelp == old(canHelp)
      ensures selections == old(selections)
    {
      var stairsBefore := hasStairs;
      stairsType := Some(kind);
      if !Truthy(stairsBefore) {
        hasStairs := Some(true);
      }
      GoToStep(if kind == "few" then 3 else 5);
    }

    /** Step 5: choosing a count records it and goes on to the help question; the empty placeholder only records. */
    method ChooseFlightCount(v: string)
      modifies this
      ensures flightCount == Some(v)
      ensures v != "" ==> step == 3 && visitedSteps == old(visitedSteps) + {3}
      ensures v == "" ==> step == old(step) && visitedSteps == old(visitedSteps)
      ensures hasStairs == old(hasStairs) && hasLift == old(hasLift) && stairsType == old(stairsType)
      ensures canHelp == old(canHelp) && selections == old(selections)
    {
      flightCount := Some(v);
      if v != "" {
        GoToStep(3);
      }
    }

    /** `handleComplete` from the Complete Selection button, which sees the current answers. */
    method Complete()
      modifies this
      ensures selections == old(selections) + [Decision(old(CurrentAnswers()))]
      ensures IsReset() && NoPendingAnswers()
    {
      CompleteWith(CurrentAnswers());
    }

    /**
     * `handleComplete` as the closure of one render: the access the answers
     * of that render describe goes to `onSelect` once, then the modal resets.
     */
    method CompleteWith(rendered: Answers)
      modifies this
      ensures selections == old(selections) + [Decision(rendered)]
      ensures IsReset() && NoPendingAnswers()
    {
      var deliveryAccess := "";
      if !Truthy(rendered.hasStairs) {
        if Truthy(rendered.hasLift) {
          deliveryAccess := LiftAccess;
        } else {
          deliveryAccess := GroundFloor;
        }
      } else if rendered.stairsType == Some("few") {
        deliveryAccess := FewSteps;
      } else if rendered.stairsType == Some("flight") {
        deliveryAccess := ShowNullable(rendered.flightCount) + OfStairs;
      }
      if Truthy(rendered.hasStairs) && rendered.canHelp == Some(false) {
        deliveryAccess := StairsNoHelp;
      }
      selections := selections + [deliveryAccess];
      Reset();
    }

    /**
     * Step 3's help buttons as written: the answer is stored, but the
     * completion called in the same handler is the closure of the render
     * before the click, in which help is still unanswered.
     */
    method AnswerHelp(help: bool)
      modifies this
      ensures selections == old(selections) + [Decision(old(CurrentAnswers()))]
      ensures IsReset() && NoPendingAnswers()
    {
      var rendered := CurrentAnswers();
      canHelp := Some(help);
      CompleteWith(rendered);
    }

    /** Step 4's lift buttons as written: the completion reads the lift answer of the render before the click. */
    method AnswerLift(lift: bool)
      modifies this
      ensures selections == old(selections) + [Decision(old(CurrentAnswers()))]
      ensures IsReset() && NoPendingAnswers()
    {
      var rendered := CurrentAnswers();
      hasLift := Some(lift);
      CompleteWith(rendered);
    }

    /** Step 3's help buttons as intended: the completion sees the answer just given. */
    method AnswerHelpIntended(help: bool)
      modifies this
      ensures selections == old(selections) + [Decision(old(CurrentAnswers()).(canHelp := Some(help)))]
      ensures IsReset() && NoPendingAnswers()
    {
      canHelp := Some(help);
      CompleteWith(CurrentAnswers());
    }

    /** Step 4's lift buttons as intended: the completion sees the answer just given. */
    method AnswerLiftIntended(lift: bool)
      modifies this
      ensures selections == old(selections) + [Decision(old(CurrentAnswers()).(hasLift := Some(lift)))]
      ensures IsReset() && NoPendingAnswers()
    {
      hasLift := Some(lift);
      CompleteWith(CurrentAnswers());
    }
  }

  /**
   * As written, refusing help never produces "Stairs no help": the handler
   * decides on the answers of the render before the click, in which help
   * is unanswered (every reachable state has no pending help answer).
   */
  lemma StaleHelpAnswer(a: Answers)
    requires a.canHelp.None?
    ensures Decision(a) != StairsNoHelp
    ensures Truthy(a.hasStairs) ==> Decision(RefuseHelp(a)) == StairsNoHelp
  {
    NoHelpExactly(a);
    NoHelpExactly(RefuseHelp(a));
  }

  /** As written, confirming a lift never produces "Lift access", for the same reason. */
  lemma StaleLiftAnswer(a: Answers)
    requires a.hasLift.None?
    ensures Decision(a) != LiftAccess
    ensures !Truthy(a.hasStairs) ==> Decision(ConfirmLift(a)) == LiftAccess
  {
    if Truthy(a.hasStairs) && a.canHelp != Some(false) && a.stairsType == Some("flight") {
      var d := ShowNullable(a.flightCount) + OfStairs;
      assert d[|d| - 2] == 'r';
      assert LiftAccess[|LiftAccess| - 2] == 's';
    }
  }

  /** The whole questionnaire as the intended handlers run it, from a reset modal to `onSelect`. */
  method StairsWithoutHelp(q: Questionnaire, count: string)
    requires q.IsReset() && count != ""
    modifies q
    ensures q.selections == old(q.selections) + [StairsNoHelp]
    ensures q.IsReset()
  {
    q.AnswerStairs(true);
    q.ChooseStairsType("flight");
    q.ChooseFlightCount(count);
    q.AnswerHelpIntended(false);
  }

  /** The same clicks with the handlers as written describe the flight of stairs instead. */
  method StairsWithoutHelpAsWritten(q: Questionnaire, count: string)
    requires q.IsReset() && count != ""
    modifies q
    ensures q.selections == old(q.selections) + [count + OfStairs]
    ensures q.IsReset()
  {
    q.AnswerStairs(true);
    q.ChooseStairsType("flight");
    q.ChooseFlightCount(count);
    q.AnswerHelp(false);
  }
}
