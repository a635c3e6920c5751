/** The older conversational intake: a role screen at step -1, then one
    question per screen; answers are recorded as each screen is left and
    the last screen hands every answer to the page. The question tables
    are parameters. Each transition (with its fade delays) is one step. */
module ConversationalForm {
  import opened Common
  import opened FormValues

  const CategoryKey := "category"
  const VarietyKey := "variety"

  datatype UserType = ExistingOwner | NewBuilder

  function RoleName(t: UserType): string {
    match t
    case ExistingOwner => "EXISTING_OWNER"
    case NewBuilder => "NEW_BUILDER"
  }

  datatype InputType = SelectionInput | TextInput | MultiSelectionInput | NumberInput

  datatype FormStep = FormStep(
    id: string, question: string, subtext: Option<string>, inputType: InputType,
    key: string, options: Option<seq<string>>, placeholder: Option<string>)

  /** The flow: the owner flow only for an existing owner, the builder flow
      otherwise (also before a role is chosen). */
  function FlowFor(userType: Option<UserType>, ownerFlow: seq<FormStep>, builderFlow: seq<FormStep>): (r: seq<FormStep>)
    ensures r == ownerFlow <==> userType == Some(ExistingOwner) || ownerFlow == builderFlow
    ensures userType != Some(ExistingOwner) ==> r == builderFlow
  {
    if userType == Some(ExistingOwner) then ownerFlow else builderFlow
  }

  /** getDisplayStep: the variety step (recognised by its key) shows the
      answered category's varieties; every other step is shown unchanged. */
  function DisplayStep(step: Option<FormStep>, answers: map<string, Answer>, categories: map<string, seq<string>>)
    : (r: Option<FormStep>)
    ensures r.Some? <==> step.Some?
    ensures r.Some? ==> r.value.(options := step.value.options) == step.value
    ensures r.Some? && step.value.key == VarietyKey && CategoryKey in answers && Truthy(answers[CategoryKey]) ==>
              r.value.options == Some(VarietyOptions(categories, answers[CategoryKey]))
    ensures r.Some? && !(step.value.key == VarietyKey && CategoryKey in answers && Truthy(answers[CategoryKey])) ==>
              r == step
  {
    match step
    case None => None
    case Some(s) =>
      if s.key == VarietyKey && CategoryKey in answers && Truthy(answers[CategoryKey]) then
        Some(s.(options := Some(VarietyOptions(categories, answers[CategoryKey]))))
      else step
  }

  /** The two early returns of transitionToNext: a falsy value on a
      non-multi step, and a falsy or empty value on a multi step. */
  predicate Blocked(active: Option<FormStep>, value: Answer) {
    && active.Some?
    && (if active.value.inputType == MultiSelectionInput then !Truthy(value) || Length(value) == 0
        else !Truthy(value))
  }

  /** handleMultiSelect's new value: a non-list current value counts as
      no options chosen. */
  function MultiToggled(current: Answer, option: string): (r: Answer)
    ensures r.List?
    ensures option in r.items <==> !(current.List? && option in current.items)
    ensures forall x :: x != option ==> (x in r.items <==> current.List? && x in current.items)
  {
    List(Toggle(if current.List? then current.items else [], option))
  }

  /** A step that may be advanced from: every text or selection answer with
      content, and every non-empty list. */
  lemma BlockedIff(active: FormStep, value: Answer)
    ensures !Blocked(Some(active), value) <==>
      (if active.inputType == MultiSelectionInput then Length(value) > 0 else Truthy(value))
  {
  }

  class Conversation {
    const ownerFlow: seq<FormStep>
    const builderFlow: seq<FormStep>
    const potatoCategories: map<string, seq<string>>

    var userType: Option<UserType>
    var stepIndex: int
    var answers: map<string, Answer>
    var currentValue: Answer
    /** The page callback's arguments, once the last step is left. */
    var completed: Option<(UserType, map<string, Answer>)>

    constructor (ownerFlow: seq<FormStep>, builderFlow: seq<FormStep>, potatoCategories: map<string, seq<string>>)
      ensures this.ownerFlow == ownerFlow && this.builderFlow == builderFlow && this.potatoCategories == potatoCategories
      ensures userType == None && stepIndex == -1 && answers == map[] && currentValue == Text("") && completed == None
      ensures Valid() && ActiveStep() == None
    {
      this.ownerFlow := ownerFlow;
      this.builderFlow := builderFlow;
      this.potatoCategories := potatoCategories;
      userType := None;
      stepIndex := -1;
      answers := map[];
      currentValue := Text("");
      completed := None;
    }

    function Flow(): seq<FormStep>
      reads this
    {
      FlowFor(userType, ownerFlow, builderFlow)
    }

    /** `currentStep`: none on the role screen (and none past the end). */
    function CurrentStep(): Option<FormStep>
      reads this
    {
      if 0 <= stepIndex < |Flow()| then Some(Flow()[stepIndex]) else None
    }

    function ActiveStep(): Option<FormStep>
      reads this
    {
      DisplayStep(CurrentStep(), answers, potatoCategories)
    }

    /** On the role screen, or past it with a role chosen and on a step (or
      on step 0 of an empty flow, where nothing is shown). */
    predicate Valid()
      reads this
    {
      -1 <= stepIndex && (stepIndex >= 0 ==> userType.Some? && (stepIndex < |Flow()| || stepIndex == 0))
    }

    /** transitionToNext(value), run to completion: from the role screen to
      step 0; otherwise the answer is recorded and the walk moves on, or
      the answers are handed over at the last step. */
    method TransitionToNext(value: Answer)
      requires Valid() && ((stepIndex == -1 && userType.Some?) || ActiveStep().Some?)
      modifies this
      ensures Valid()
      ensures Blocked(old(ActiveStep()), value) ==>
                stepIndex == old(stepIndex) && answers == old(answers) && currentValue == old(currentValue)
                && completed == old(completed)
      ensures !Blocked(old(ActiveStep()), value) && old(stepIndex) == -1 ==>
                stepIndex == 0 && answers == old(answers) && currentValue == old(currentValue) && completed == old(completed)
      ensures !Blocked(old(ActiveStep()), value) && old(stepIndex) >= 0 ==>
                var updated := old(answers)[old(ActiveStep()).value.key := value];
                && answers == updated
                && (old(stepIndex) < |old(Flow())| - 1 ==>
                      stepIndex == old(stepIndex) + 1 && currentValue == Text("") && completed == old(completed))
                && (old(stepIndex) >= |old(Flow())| - 1 ==>
                      stepIndex == old(stepIndex) && currentValue == old(currentValue)
                      && completed == Some((old(userType).value, updated)))
      ensures userType == old(userType)
    {
      var active := ActiveStep();
      if Blocked(active, value) {
        return;
      }
      if stepIndex == -1 {
        stepIndex := 0;
      } else {
        var updated := answers[active.value.key := value];
        answers := updated;
        if stepIndex < |Flow()| - 1 {
          stepIndex := stepIndex + 1;
          currentValue := Text("");
        } else {
          completed := Some((userType.value, updated));
        }
      }
    }

    /** The role buttons: the role is set, then the transition from the
      role screen runs (nothing can block it there). */
    method HandleRoleSelect(t: UserType)
      requires Valid() && stepIndex == -1
      modifies this
      ensures Valid()
      ensures userType == Some(t) && stepIndex == 0
      ensures answers == old(answers) && currentValue == old(currentValue) && completed == old(completed)
    {
      userType := Some(t);
      TransitionToNext(Text(RoleName(t)));
    }

    /** Typing into a text or number step. */
    method HandleInput(text: string)
      modifies this
      ensures currentValue == Text(text)
      ensures userType == old(userType) && stepIndex == old(stepIndex) && answers == old(answers) && completed == old(completed)
    {
      currentValue := Text(text);
    }

    method HandleMultiSelect(option: string)
      modifies this
      ensures currentValue == MultiToggled(old(currentValue), option)
      ensures userType == old(userType) && stepIndex == old(stepIndex) && answers == old(answers) && completed == old(completed)
    {
      currentValue := MultiToggled(currentValue, option);
    }

    /** The Back button, shown on every question: from step 0 back to the
      role screen without a role, otherwise one step up; answers stay. */
    method HandleBack()
      requires Valid() && ActiveStep().Some?
      modifies this
      ensures Valid()
      ensures old(stepIndex) == 0 ==> userType == None && stepIndex == -1
      ensures old(stepIndex) > 0 ==> userType == old(userType) && stepIndex == old(stepIndex) - 1
      ensures answers == old(answers) && currentValue == old(currentValue) && completed == old(completed)
    {
      if stepIndex == 0 {
        userType := None;
        stepIndex := -1;
      } else {
        stepIndex := stepIndex - 1;
      }
    }
  }
}
