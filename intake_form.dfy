/** The intake wizard: the user picks a role, then answers that role's
    questions one at a time; the last Continue submits every answer at
    once. The question tables are parameters of the page. */
module IntakeForm {
  import opened Common
  import opened FormValues

  const UserChoiceExisting := "existing"
  const UserChoiceBuild := "build"
  const SubmitFallback := "Failed to submit form. Please try again."
  const CategoryKey := "category"
  const VarietyKey := "variety"

  datatype FieldType = TextField | Selection | MultiSelection

  datatype FormField = FormField(
    id: string, key: string, question: string, subtext: Option<string>,
    fieldType: FieldType, placeholder: Option<string>, options: Option<seq<string>>)

  datatype UserType = Owner | Builder

  /** What the submit endpoint does with the answers. A rejection may carry
      the server's `message`. */
  datatype IntakeOutcome =
    | IntakeAccepted(sessionId: string, suggestedQuestions: seq<string>)
    | IntakeRejected(message: Option<string>)

  /** The body sent to the submit endpoint. */
  datatype IntakePayload = IntakePayload(userChoice: string, intakeData: map<string, Answer>)

  /** The question list for the chosen role; none before a role is chosen. */
  function Fields(userType: Option<UserType>, ownerFlow: seq<FormField>, builderFlow: seq<FormField>): (r: seq<FormField>)
    ensures userType == None ==> r == []
    ensures userType == Some(Owner) ==> r == ownerFlow
    ensures userType == Some(Builder) ==> r == builderFlow
  {
    match userType
    case None => []
    case Some(Owner) => ownerFlow
    case Some(Builder) => builderFlow
  }

  /** `formFields[index]`, undefined past the end. */
  function FieldAt(fields: seq<FormField>, index: nat): (r: Option<FormField>)
    ensures r.Some? <==> index < |fields|
    ensures r.Some? ==> r.value == fields[index]
  {
    if index < |fields| then Some(fields[index]) else None
  }

  /** The role sent with the answers: 'existing' for an owner, 'build' for
      everyone else. */
  function UserChoiceFor(userType: Option<UserType>): (c: string)
    ensures c == UserChoiceExisting <==> userType == Some(Owner)
    ensures c == UserChoiceExisting || c == UserChoiceBuild
  {
    if userType == Some(Owner) then UserChoiceExisting else UserChoiceBuild
  }

  /** isCurrentStepValid. A list stored under a text question counts as
      invalid (the source would call `trim` on it). */
  predicate StepValid(field: Option<FormField>, values: map<string, Answer>, multi: seq<string>) {
    match field
    case None => false
    case Some(f) =>
      match f.fieldType
      case TextField => f.key in values && values[f.key].Text? && |Trim(values[f.key].s)| > 0
      case Selection => f.key in values && Truthy(values[f.key])
      case MultiSelection => |multi| > 0
  }

  /** getCurrentFieldOptions: a variety question (recognised by its id)
      lists the chosen category's varieties; every other question its own
      options, or none. */
  function FieldOptions(field: Option<FormField>, values: map<string, Answer>, categories: map<string, seq<string>>): (r: seq<string>)
    ensures field.None? ==> r == []
    ensures field.Some? && field.value.id == VarietyKey && CategoryKey in values && Truthy(values[CategoryKey]) ==>
              r == VarietyOptions(categories, values[CategoryKey])
    ensures field.Some? && !(field.value.id == VarietyKey && CategoryKey in values && Truthy(values[CategoryKey])) ==>
              r == field.value.options.GetOr([])
  {
    match field
    case None => []
    case Some(f) =>
      if f.id == VarietyKey && CategoryKey in values && Truthy(values[CategoryKey]) then
        VarietyOptions(categories, values[CategoryKey])
      else if f.options.Some? then f.options.value else []
  }

  function Lookup(values: map<string, Answer>, key: string): Option<Answer> {
    if key in values then Some(values[key]) else None
  }

  /** A stored variety that the stored category's list does not contain
      (a list-valued variety is never contained: `includes` compares by
      identity). */
  predicate VarietyStale(categories: map<string, seq<string>>, values: map<string, Answer>) {
    && CategoryKey in values && Truthy(values[CategoryKey])
    && VarietyKey in values && Truthy(values[VarietyKey])
    && !(values[VarietyKey].Text? && values[VarietyKey].s in VarietyOptions(categories, values[CategoryKey]))
  }

  /** The answers after an update from `before` to `after`, once the
      variety effect has run: it runs only when the category changed, and
      then drops a stale variety and nothing else. */
  function AfterCategoryEffect(categories: map<string, seq<string>>, before: map<string, Answer>, after: map<string, Answer>)
    : (r: map<string, Answer>)
    ensures forall k :: k != VarietyKey ==> Lookup(r, k) == Lookup(after, k)
    ensures VarietyKey in r ==> VarietyKey in after && r[VarietyKey] == after[VarietyKey]
    ensures VarietyKey !in r <==>
              VarietyKey !in after || (Lookup(before, CategoryKey) != Lookup(after, CategoryKey) && VarietyStale(categories, after))
    ensures Lookup(before, CategoryKey) != Lookup(after, CategoryKey) ==> !VarietyStale(categories, r)
  {
    if Lookup(before, CategoryKey) != Lookup(after, CategoryKey) && VarietyStale(categories, after) then
      after - {VarietyKey}
    else after
  }

  /** Choosing an option for a selection question always makes that step
      valid, even when the question is the variety itself. */
  lemma SelectionMakesStepValid(categories: map<string, seq<string>>, values: map<string, Answer>,
                                f: FormField, option: string, multi: seq<string>)
    requires f.fieldType == Selection && option != ""
    ensures StepValid(Some(f), AfterCategoryEffect(categories, values, values[f.key := Text(option)]), multi)
  {
    var after := values[f.key := Text(option)];
    if f.key == VarietyKey {
      assert Lookup(values, CategoryKey) == Lookup(after, CategoryKey);
    } else {
      assert Lookup(AfterCategoryEffect(categories, values, after), f.key) == Lookup(after, f.key);
    }
  }

  /** Switching to a category whose list contains the stored variety keeps it. */
  lemma ListedVarietySurvives(categories: map<string, seq<string>>, values: map<string, Answer>, category: string)
    requires category != "" && VarietyKey in values && values[VarietyKey].Text?
    requires category in categories && values[VarietyKey].s in categories[category]
    ensures var r := AfterCategoryEffect(categories, values, values[CategoryKey := Text(category)]);
            VarietyKey in r && r[VarietyKey] == values[VarietyKey]
  {
    var after := values[CategoryKey := Text(category)];
    assert after[VarietyKey] == values[VarietyKey];
    assert !VarietyStale(categories, after);
  }

  class Intake {
    const ownerFlow: seq<FormField>
    const builderFlow: seq<FormField>
    const potatoCategories: map<string, seq<string>>

    var userType: Option<UserType>
    var currentStepIndex: nat
    var formValues: map<string, Answer>
    var multiSelectValues: seq<string>
    var isSubmitting: bool
    var isSubmitted: bool
    var error: Option<string>
    /** The session id and question texts handed to the page's completion
      callback, once the 3 s success delay is over. */
    var completed: Option<(string, seq<string>)>

    constructor (ownerFlow: seq<FormField>, builderFlow: seq<FormField>, potatoCategories: map<string, seq<string>>)
      ensures this.ownerFlow == ownerFlow && this.builderFlow == builderFlow && this.potatoCategories == potatoCategories
      ensures userType == None && currentStepIndex == 0 && formValues == map[] && multiSelectValues == []
      ensures !isSubmitting && !isSubmitted && error == None && completed == None
      ensures Valid()
    {
      this.ownerFlow := ownerFlow;
      this.builderFlow := builderFlow;
      this.potatoCategories := potatoCategories;
      userType := None;
      currentStepIndex := 0;
      formValues := map[];
      multiSelectValues := [];
      isSubmitting := false;
      isSubmitted := false;
      error := None;
      completed := None;
    }

    function FormFields(): seq<FormField>
      reads this
    {
      Fields(userType, ownerFlow, builderFlow)
    }

    function CurrentField(): Option<FormField>
      reads this
    {
      FieldAt(FormFields(), currentStepIndex)
    }

    /** The step is on a question, or on step 0 of an empty list. */
    predicate Valid()
      reads this
    {
      currentStepIndex == 0 || currentStepIndex < |FormFields()|
    }

    predicate IsCurrentStepValid()
      reads this
    {
      StepValid(CurrentField(), formValues, multiSelectValues)
    }

    function CurrentFieldOptions(): seq<string>
      reads this
    {
      FieldOptions(CurrentField(), formValues, potatoCategories)
    }

    /** The Continue button's enabled state: only on a question, never
      while a submission is in flight, and on a multi-select question
      exactly when something is ticked. */
    predicate ContinueEnabled()
      reads this
      ensures ContinueEnabled() ==> CurrentField().Some? && !isSubmitting
      ensures isSubmitting ==> !ContinueEnabled()
      ensures CurrentField().Some? && CurrentField().value.fieldType == MultiSelection ==>
                (ContinueEnabled() <==> |multiSelectValues| > 0 && !isSubmitting)
    {
      IsCurrentStepValid() && !isSubmitting
    }

    /** A role choice restarts the walk on that role's first question. */
    method HandleUserTypeSelect(t: UserType)
      modifies this
      ensures userType == Some(t) && currentStepIndex == 0 && formValues == map[] && multiSelectValues == []
      ensures isSubmitting == old(isSubmitting) && isSubmitted == old(isSubmitted)
      ensures error == old(error) && completed == old(completed)
      ensures Valid()
    {
      userType := Some(t);
      currentStepIndex := 0;
      formValues := AfterCategoryEffect(potatoCategories, formValues, map[]);
      multiSelectValues := [];
    }

    /** Stores `answer` under the current question's key; the variety effect
      then runs on the new answers. */
    method SetCurrentAnswer(answer: Answer)
      requires CurrentField().Some?
      modifies this
      ensures formValues == AfterCategoryEffect(potatoCategories, old(formValues),
                                                old(formValues)[old(CurrentField()).value.key := answer])
      ensures userType == old(userType) && currentStepIndex == old(currentStepIndex)
      ensures multiSelectValues == old(multiSelectValues) && isSubmitting == old(isSubmitting)
      ensures isSubmitted == old(isSubmitted) && error == old(error) && completed == old(completed)
    {
      formValues := AfterCategoryEffect(potatoCategories, formValues, formValues[CurrentField().value.key := answer]);
    }

    method HandleSelection(option: string)
      requires CurrentField().Some?
      modifies this
      ensures formValues == AfterCategoryEffect(potatoCategories, old(formValues),
                                                old(formValues)[old(CurrentField()).value.key := Text(option)])
      ensures userType == old(userType) && currentStepIndex == old(currentStepIndex)
      ensures multiSelectValues == old(multiSelectValues) && isSubmitting == old(isSubmitting)
      ensures isSubmitted == old(isSubmitted) && error == old(error) && completed == old(completed)
    {
      SetCurrentAnswer(Text(option));
    }

    method HandleTextInput(value: string)
      requires CurrentField().Some?
      modifies this
      ensures formValues == AfterCategoryEffect(potatoCategories, old(formValues),
                                                old(formValues)[old(CurrentField()).value.key := Text(value)])
      ensures userType == old(userType) && currentStepIndex == old(currentStepIndex)
      ensures multiSelectValues == old(multiSelectValues) && isSubmitting == old(isSubmitting)
      ensures isSubmitted == old(isSubmitted) && error == old(error) && completed == old(completed)
    {
      SetCurrentAnswer(Text(value));
    }

    method HandleMultiSelection(option: string)
      modifies this
      ensures multiSelectValues == Toggle(old(multiSelectValues), option)
      ensures userType == old(userType) && currentStepIndex == old(currentStepIndex) && formValues == old(formValues)
      ensures isSubmitting == old(isSubmitting) && isSubmitted == old(isSubmitted)
      ensures error == old(error) && completed == old(completed)
    {
      multiSelectValues := Toggle(multiSelectValues, option);
    }

    /** Back goes one question up, or from the first question back to the
      role choice; the answers stay. */
    method HandleBack()
      requires Valid()
      modifies this
      ensures Valid()
      ensures old(currentStepIndex) > 0 ==> currentStepIndex == old(currentStepIndex) - 1 && userType == old(userType)
      ensures old(currentStepIndex) == 0 ==> currentStepIndex == 0 && userType == None
      ensures formValues == old(formValues) && multiSelectValues == old(multiSelectValues)
      ensures isSubmitting == old(isSubmitting) && isSubmitted == old(isSubmitted)
      ensures error == old(error) && completed == old(completed)
    {
      if currentStepIndex > 0 {
        currentStepIndex := currentStepIndex - 1;
      } else {
        userType := None;
      }
    }

    /** performNextStep. Before the last question it moves on; at the last
      it starts the submission and returns the payload sent (the reply is
      delivered by CompleteSubmission). A list answer is stored first. */
    method PerformNextStep(finalValue: Answer) returns (sent: Option<IntakePayload>)
      requires Valid() && CurrentField().Some?
      modifies this
      ensures Valid()
      ensures old(isSubmitting) ==> sent == None && formValues == old(formValues) && currentStepIndex == old(currentStepIndex)
                                    && multiSelectValues == old(multiSelectValues) && isSubmitting && error == old(error)
      ensures !old(isSubmitting) ==>
        var f := old(CurrentField()).value;
        && formValues == (if f.fieldType == MultiSelection
                          then AfterCategoryEffect(potatoCategories, old(formValues), old(formValues)[f.key := finalValue])
                          else old(formValues))
        && (old(currentStepIndex) + 1 < |old(FormFields())| ==>
              currentStepIndex == old(currentStepIndex) + 1 && multiSelectValues == [] && sent == None
              && isSubmitting == old(isSubmitting) && error == old(error))
        && (old(currentStepIndex) + 1 >= |old(FormFields())| ==>
              currentStepIndex == old(currentStepIndex) && multiSelectValues == old(multiSelectValues)
              && isSubmitting && error == None
              && sent == Some(IntakePayload(UserChoiceFor(old(userType)), old(formValues)[f.key := finalValue])))
      ensures userType == old(userType) && isSubmitted == old(isSubmitted) && completed == old(completed)
    {
      if isSubmitting {
        return None;
      }
      var f := CurrentField().value;
      var snapshot := formValues;
      if f.fieldType == MultiSelection {
        formValues := AfterCategoryEffect(potatoCategories, formValues, formValues[f.key := finalValue]);
      }
      if currentStepIndex + 1 < |FormFields()| {
        currentStepIndex := currentStepIndex + 1;
        multiSelectValues := [];
        sent := None;
      } else {
        isSubmitting := true;
        error := None;
        sent := Some(IntakePayload(UserChoiceFor(userType), snapshot[f.key := finalValue]));
      }
    }

    /** The Continue button: submits the stored answer, or the chosen list
      for a multi-selection question. */
    method HandleNext() returns (sent: Option<IntakePayload>)
      requires Valid() && ContinueEnabled()
      modifies this
      ensures Valid()
      ensures var f := old(CurrentField()).value;
              var v := if f.fieldType == MultiSelection then List(old(multiSelectValues)) else old(formValues)[f.key];
              && formValues == (if f.fieldType == MultiSelection
                                then AfterCategoryEffect(potatoCategories, old(formValues), old(formValues)[f.key := v])
                                else old(formValues))
              && (old(currentStepIndex) + 1 < |old(FormFields())| ==>
                    currentStepIndex == old(currentStepIndex) + 1 && multiSelectValues == [] && sent == None
                    && isSubmitting == old(isSubmitting) && error == old(error))
              && (old(currentStepIndex) + 1 >= |old(FormFields())| ==>
                    currentStepIndex == old(currentStepIndex) && multiSelectValues == old(multiSelectValues)
                    && isSubmitting && error == None
                    && sent == Some(IntakePayload(UserChoiceFor(old(userType)), old(formValues)[f.key := v])))
      ensures userType == old(userType) && isSubmitted == old(isSubmitted) && completed == old(completed)
    {
      var f := CurrentField().value;
      var v := if f.fieldType == MultiSelection then List(multiSelectValues) else formValues[f.key];
      sent := PerformNextStep(v);
    }

    /** The submission's reply. Success shows the thank-you screen and then
      hands the session to the page; failure shows the server's message or
      the fallback and leaves the walk where it was. */
    method CompleteSubmission(outcome: IntakeOutcome)
      requires isSubmitting
      modifies this
      ensures !isSubmitting
      ensures outcome.IntakeAccepted? ==>
                isSubmitted && completed == Some((outcome.sessionId, outcome.suggestedQuestions)) && error == old(error)
      ensures outcome.IntakeRejected? ==>
                isSubmitted == old(isSubmitted) && completed == old(completed)
                && error == Some(if outcome.message.Some? && outcome.message.value != "" then outcome.message.value
                                 else SubmitFallback)
      ensures userType == old(userType) && currentStepIndex == old(currentStepIndex)
      ensures formValues == old(formValues) && multiSelectValues == old(multiSelectValues)
    {
      isSubmitting := false;
      match outcome {
        case IntakeAccepted(sessionId, questions) =>
          isSubmitted := true;
          completed := Some((sessionId, questions));
        case IntakeRejected(message) =>
          error := Some(if message.Some? && message.value != "" then message.value else SubmitFallback);
      }
    }
  }

  /** A text answer is valid exactly when it is not all white space. */
  lemma TextStepValidIff(f: FormField, values: map<string, Answer>, multi: seq<string>, text: string)
    requires f.fieldType == TextField
    ensures StepValid(Some(f), values[f.key := Text(text)], multi) <==> !AllWhitespace(text)
  {
    TrimEmptyIff(text);
  }
}
