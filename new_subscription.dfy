/** The admin "New Subscription" form: a declarative schema of six required fields,
    the form-state record the component keeps (`values`, `errors`, `touched`,
    `isValid`, `isChanged`), the updaters its handlers apply to that record, the
    `hasError` test and the predicate that enables the "Create Subscription" button. */
module NewSubscription {
  import opened Api

  datatype Field = Image | Price | Title | PlanId | Validity | Description

  /** The fields edited through a text box; the image only changes by upload. */
  type TextField = f: Field | f != Image witness Title

  /** The schema's `length.maximum` for each field. */
  function MaxLength(f: Field): (m: nat)
    ensures m == 256 <==> f == PlanId
    ensures m == 526 <==> f == Description
    ensures f != PlanId && f != Description ==> m == 32
  {
    match f
    case PlanId => 256
    case Description => 526
    case _ => 32
  }

  /** A validation message: the schema's custom presence message, or the
      library's "too long" message carrying the maximum. */
  datatype Message = IsRequired | TooLong(maximum: nat)

  type Values = map<Field, string>

  /** The six schema fields, in the order the button's expression tests them. */
  predicate IsListed(f: Field)
  {
    f == Image || f == Title || f == Description || f == Price || f == PlanId || f == Validity
  }

  lemma EveryFieldListed(f: Field)
    ensures IsListed(f)
  {
  }

  predicate Complete(values: Values)
  {
    forall f: Field :: f in values
  }

  /** What the schema asks of one value: present (non-empty) and within its maximum. */
  predicate Acceptable(f: Field, v: string)
  {
    0 < |v| <= MaxLength(f)
  }

  /** The messages the schema produces for one value, presence first, then length. */
  function FieldMessages(f: Field, v: string): (msgs: seq<Message>)
    ensures msgs == [] <==> Acceptable(f, v)
    ensures IsRequired in msgs <==> |v| == 0
    ensures TooLong(MaxLength(f)) in msgs <==> |v| > MaxLength(f)
    ensures |msgs| <= 1
  {
    (if |v| == 0 then [IsRequired] else [])
    + (if |v| > MaxLength(f) then [TooLong(MaxLength(f))] else [])
  }

  /** Validation of all values against the schema: one entry per failing field,
      and no entry at all when every field passes. */
  function Validate(values: Values): (errors: map<Field, seq<Message>>)
    requires Complete(values)
    ensures forall f: Field :: f in errors <==> !Acceptable(f, values[f])
    ensures forall f: Field :: f in errors ==> errors[f] != []
    ensures forall f: Field :: f in errors ==> errors[f] == FieldMessages(f, values[f])
    ensures errors == map[] <==> forall f: Field :: Acceptable(f, values[f])
  {
    var errors := map f: Field | f in values && FieldMessages(f, values[f]) != [] :: FieldMessages(f, values[f]);
    assert errors == map[] <== forall f: Field :: Acceptable(f, values[f]) by {
      if forall f: Field :: Acceptable(f, values[f]) {
        assert errors.Keys == {};
      }
    }
    errors
  }

  /** The component's `subscriptionState` record. */
  datatype FormState = FormState(
    values: Values,
    errors: map<Field, seq<Message>>,
    touched: map<Field, bool>,
    isValid: bool,
    isChanged: bool)

  /** The record the component starts with, before its validation effect first runs. */
  const Initial: FormState :=
    FormState(
      map[Image := "", Price := "", Title := "", PlanId := "", Validity := "", Description := ""],
      map[], map[], false, false)

  /** What every state reachable from `Initial` satisfies: all six values are present,
      touched flags are only ever `true`, the image is never touched, a text field
      that was never touched is still empty, and an error entry always carries a
      message. */
  predicate WellFormed(s: FormState)
  {
    && Complete(s.values)
    && Image !in s.touched
    && (forall f :: f in s.touched ==> s.touched[f])
    && (forall f: TextField :: f !in s.touched ==> s.values[f] == "")
    && (forall f :: f in s.errors ==> s.errors[f] != [])
  }

  /** The validation effect has run on the current values. */
  predicate Settled(s: FormState)
    requires Complete(s.values)
  {
    s.errors == Validate(s.values) && s.isValid == (s.errors == map[])
  }

  /** The validation effect: recomputes `errors` and `isValid` from `values`. */
  function Revalidated(s: FormState): (r: FormState)
    requires Complete(s.values)
    ensures r.values == s.values && r.touched == s.touched && r.isChanged == s.isChanged
    ensures Settled(r)
    ensures r.isValid <==> forall f: Field :: Acceptable(f, r.values[f])
    ensures r.errors == map[] <==> r.isValid
    ensures WellFormed(s) ==> WellFormed(r)
  {
    var errors := Validate(s.values);
    s.(isValid := errors == map[], errors := errors)
  }

  /** The `onChange` updater: stores the typed value, marks the field touched and
      the form changed; every other value, flag and the errors stay as they were. */
  function Changed(s: FormState, name: TextField, v: string): (r: FormState)
    ensures name in r.values && r.values[name] == v
    ensures name in r.touched && r.touched[name]
    ensures r.isChanged
    ensures forall g :: g != name ==> (g in r.values <==> g in s.values)
    ensures forall g :: g != name && g in s.values ==> g in r.values && r.values[g] == s.values[g]
    ensures forall g :: g != name ==> (g in r.touched <==> g in s.touched)
    ensures forall g :: g != name && g in s.touched ==> g in r.touched && r.touched[g] == s.touched[g]
    ensures Complete(s.values) ==> Complete(r.values)
    ensures r.errors == s.errors && r.isValid == s.isValid
    ensures WellFormed(s) ==> WellFormed(r)
  {
    s.(values := s.values[name := v], touched := s.touched[name := true], isChanged := true)
  }

  /** The updater applied once the picture has been read: only the image value changes. */
  function PictureUploaded(s: FormState, image: string): (r: FormState)
    ensures Image in r.values && r.values[Image] == image
    ensures forall g :: g != Image ==> (g in r.values <==> g in s.values)
    ensures forall g :: g != Image && g in s.values ==> g in r.values && r.values[g] == s.values[g]
    ensures Complete(s.values) ==> Complete(r.values)
    ensures r.touched == s.touched && r.isChanged == s.isChanged
    ensures r.errors == s.errors && r.isValid == s.isValid
    ensures WellFormed(s) ==> WellFormed(r)
  {
    s.(values := s.values[Image := image])
  }

  /** `hasError(field)`: the field is touched and has a validation entry. */
  function HasError(s: FormState, f: Field): (has: bool)
    ensures has ==> f in s.touched && s.touched[f]
    ensures has && WellFormed(s) ==> f in s.errors && s.errors[f] != []
    ensures WellFormed(s) && f == Image ==> !has
  {
    f in s.touched && s.touched[f] && f in s.errors
  }

  /** On a well-formed, settled record `hasError` holds exactly for a touched field
      whose value fails the schema; so it never holds for the image. */
  lemma HasErrorMeansTouchedAndFailing(s: FormState, f: Field)
    requires WellFormed(s) && Settled(s)
    ensures HasError(s, f) <==> f in s.touched && !Acceptable(f, s.values[f])
    ensures !HasError(s, Image)
  {
  }

  /** The negation of the button's `disabled` expression, in its own order. */
  function SubmitEnabled(s: FormState): (enabled: bool)
    requires Complete(s.values)
    ensures enabled <==>
      s.isChanged && forall f: Field :: |s.values[f]| > 0 && !HasError(s, f)
  {
    assert (forall f: Field :: |s.values[f]| > 0 && !HasError(s, f)) <==
      (forall f: Field | IsListed(f) :: |s.values[f]| > 0 && !HasError(s, f)) by {
      forall f: Field { EveryFieldListed(f); }
    }
    !(!s.isChanged
      || HasError(s, Image) || |s.values[Image]| <= 0
      || HasError(s, Title) || |s.values[Title]| <= 0
      || HasError(s, Description) || |s.values[Description]| <= 0
      || HasError(s, Price) || |s.values[Price]| <= 0
      || HasError(s, PlanId) || |s.values[PlanId]| <= 0
      || HasError(s, Validity) || |s.values[Validity]| <= 0)
  }

  /** A user action on the form, each followed by the validation effect it triggers. */
  datatype FormEvent = Edit(name: TextField, value: string) | Upload(image: string)

  /** The record the user sees once the effect has run on mount. */
  const Mounted: FormState := (InitialIsWellFormed(); Revalidated(Initial))

  lemma InitialIsWellFormed()
    ensures WellFormed(Initial)
    ensures !SubmitEnabled(Initial)
  {
    forall f: Field ensures f in Initial.values {
      EveryFieldListed(f);
    }
  }

  function Step(s: FormState, e: FormEvent): (r: FormState)
    requires Complete(s.values)
    ensures Complete(r.values)
  {
    match e
    case Edit(name, v) => Revalidated(Changed(s, name, v))
    case Upload(image) => Revalidated(PictureUploaded(s, image))
  }

  function Run(s: FormState, events: seq<FormEvent>): (r: FormState)
    requires Complete(s.values)
    ensures Complete(r.values)
    decreases |events|
  {
    if events == [] then s else Run(Step(s, events[0]), events[1..])
  }

  /** Every record the user can see after mounting and any sequence of edits and
      uploads is well formed and settled: in particular the image is never touched. */
  lemma {:induction false} RunKeepsInvariant(s: FormState, events: seq<FormEvent>)
    requires WellFormed(s) && Settled(s)
    ensures WellFormed(Run(s, events)) && Settled(Run(s, events))
    ensures Image !in Run(s, events).touched
    decreases |events|
  {
    if events != [] {
      var next := Step(s, events[0]);
      assert WellFormed(next) && Settled(next);
      RunKeepsInvariant(next, events[1..]);
    }
  }

  lemma MountedIsWellFormed()
    ensures WellFormed(Mounted) && Settled(Mounted)
    ensures !Mounted.isValid && !SubmitEnabled(Mounted)
  {
    assert !Acceptable(Image, Mounted.values[Image]);
  }

  /** On a well-formed, settled record the button is enabled exactly when the form
      has changed, every value is present, and every touched field is within its
      maximum. The image is never touched, so its maximum never takes part. */
  lemma SettledSubmitGate(s: FormState)
    requires WellFormed(s) && Settled(s)
    ensures SubmitEnabled(s) <==>
      && s.isChanged
      && (forall f: Field :: |s.values[f]| > 0)
      && (forall f: TextField :: f in s.touched ==> |s.values[f]| <= MaxLength(f))
  {
    if s.isChanged && (forall f: Field :: |s.values[f]| > 0)
       && (forall f: TextField :: f in s.touched ==> |s.values[f]| <= MaxLength(f))
    {
      forall f: Field ensures !HasError(s, f) {
        if f != Image && f in s.touched {
          assert |s.values[f]| <= MaxLength(f);
          assert Acceptable(f, s.values[f]);
        }
      }
    }
    if SubmitEnabled(s) {
      forall f: TextField | f in s.touched ensures |s.values[f]| <= MaxLength(f) {
        assert !HasError(s, f);
      }
    }
  }

  /** The two checks agree in one direction: a valid, changed, settled form can be submitted. */
  lemma ValidFormCanSubmit(s: FormState)
    requires WellFormed(s) && Settled(s)
    requires s.isValid && s.isChanged
    ensures SubmitEnabled(s)
  {
    SettledSubmitGate(s);
    assert forall f: Field :: Acceptable(f, s.values[f]);
  }

  /** An enabled button means every text field passes the schema: a non-empty text
      field has been edited, hence touched, so its `hasError` is consulted. Only the
      image can make `isValid` disagree with the button. */
  lemma SubmitEnabledMeansTextFieldsAcceptable(s: FormState)
    requires WellFormed(s) && Settled(s)
    requires SubmitEnabled(s)
    ensures forall f: TextField :: Acceptable(f, s.values[f])
    ensures s.isValid <==> Acceptable(Image, s.values[Image])
  {
    SettledSubmitGate(s);
    forall f: TextField ensures Acceptable(f, s.values[f]) {
      assert |s.values[f]| > 0;
      assert f in s.touched;
    }
    if Acceptable(Image, s.values[Image]) {
      forall f: Field ensures Acceptable(f, s.values[f]) {
        EveryFieldListed(f);
      }
    }
  }

  /** Uploading a non-empty picture over a non-empty one never changes whether the
      button is enabled, however long the new image is: the image is never touched,
      so its validation entry is never consulted. */
  lemma UploadKeepsSubmitGate(s: FormState, image: string)
    requires WellFormed(s) && Settled(s)
    requires |image| > 0 && |s.values[Image]| > 0
    ensures SubmitEnabled(Step(s, Upload(image))) == SubmitEnabled(s)
  {
    var t := Step(s, Upload(image));
    forall f: Field ensures HasError(t, f) == HasError(s, f) && (|t.values[f]| > 0 <==> |s.values[f]| > 0) {
      if f != Image {
        assert t.values[f] == s.values[f];
        assert f in t.errors <==> f in s.errors;
      }
    }
  }

  /** In any record reachable from mounting, replacing a non-empty picture by any
      non-empty one leaves the button exactly as enabled as before. */
  lemma {:induction false} ImageLengthNeverBlocksSubmit(events: seq<FormEvent>, image: string)
    requires |image| > 0
    requires |Run(Mounted, events).values[Image]| > 0
    ensures SubmitEnabled(Step(Run(Mounted, events), Upload(image)))
        == SubmitEnabled(Run(Mounted, events))
  {
    MountedIsWellFormed();
    RunKeepsInvariant(Mounted, events);
    UploadKeepsSubmitGate(Run(Mounted, events), image);
  }

  /** The two checks disagree in the other direction: from a record whose button is
      enabled, uploading an image longer than the image maximum (as every encoded
      picture is) keeps the button enabled while the record says the form is invalid. */
  lemma SubmitEnabledWhileInvalid(s: FormState, image: string)
    requires WellFormed(s) && Settled(s) && SubmitEnabled(s)
    requires |image| > MaxLength(Image)
    ensures SubmitEnabled(Step(s, Upload(image)))
    ensures !Step(s, Upload(image)).isValid
  {
    UploadKeepsSubmitGate(s, image);
    assert !Acceptable(Image, Step(s, Upload(image)).values[Image]);
  }

  /** Filling every text field and uploading a picture, in the order of the page. */
  function FillIn(title: string, description: string, price: string, planId: string,
                  validity: string, image: string): seq<FormEvent>
  {
    [Edit(Title, title), Edit(Description, description), Edit(Price, price),
     Edit(PlanId, planId), Edit(Validity, validity), Upload(image)]
  }

  /** The value an event writes to a field, if it writes that field at all. */
  function Written(f: Field, e: FormEvent): Option<string>
  {
    match e
    case Edit(name, v) => if name == f then Some(v) else None
    case Upload(image) => if f == Image then Some(image) else None
  }

  /** The last value the events write to `f`, or `current` when none writes it. */
  function LastWritten(current: string, f: Field, events: seq<FormEvent>): string
    decreases |events|
  {
    if events == [] then current
    else LastWritten(Written(f, events[0]).GetOr(current), f, events[1..])
  }

  /** After any run each field holds the last value written to it: no handler
      touches a value it was not given. */
  lemma {:induction false} RunValues(s: FormState, events: seq<FormEvent>, f: Field)
    requires Complete(s.values)
    ensures Run(s, events).values[f] == LastWritten(s.values[f], f, events)
    decreases |events|
  {
    if events != [] {
      var next := Step(s, events[0]);
      assert next.values[f] == Written(f, events[0]).GetOr(s.values[f]);
      RunValues(next, events[1..], f);
    }
  }

  /** A run marks the form changed exactly when it holds an edit (or it was
      changed already): uploading a picture never does. */
  lemma {:induction false} RunChanged(s: FormState, events: seq<FormEvent>)
    requires Complete(s.values)
    ensures Run(s, events).isChanged <==>
      s.isChanged || exists i :: 0 <= i < |events| && events[i].Edit?
    decreases |events|
  {
    if events != [] {
      var next := Step(s, events[0]);
      RunChanged(next, events[1..]);
      if exists i :: 0 <= i < |events[1..]| && events[1..][i].Edit? {
        var i :| 0 <= i < |events[1..]| && events[1..][i].Edit?;
        assert events[i + 1].Edit?;
      }
      if exists i :: 0 <= i < |events| && events[i].Edit? {
        var i :| 0 <= i < |events| && events[i].Edit?;
        if i > 0 {
          assert events[1..][i - 1].Edit?;
        }
      }
    }
  }

  /** Over the fill-in sequence, every field ends with the value written for it. */
  lemma FillInWrites(current: string, f: Field, title: string, description: string,
                     price: string, planId: string, validity: string, image: string)
    ensures LastWritten(current, f, FillIn(title, description, price, planId, validity, image))
      == match f
         case Title => title
         case Description => description
         case Price => price
         case PlanId => planId
         case Validity => validity
         case Image => image
  {
    var es := FillIn(title, description, price, planId, validity, image);
    var c1 := Written(f, es[0]).GetOr(current);
    var c2 := Written(f, es[1]).GetOr(c1);
    var c3 := Written(f, es[2]).GetOr(c2);
    var c4 := Written(f, es[3]).GetOr(c3);
    var c5 := Written(f, es[4]).GetOr(c4);
    var c6 := Written(f, es[5]).GetOr(c5);
    assert LastWritten(c6, f, es[6..]) == c6;
    assert LastWritten(c5, f, es[5..]) == c6;
    assert LastWritten(c4, f, es[4..]) == c6;
    assert LastWritten(c3, f, es[3..]) == c6;
    assert LastWritten(c2, f, es[2..]) == c6;
    assert LastWritten(c1, f, es[1..]) == c6;
    assert LastWritten(current, f, es) == c6;
  }

  lemma FilledValues(s0: FormState, title: string, description: string, price: string,
                     planId: string, validity: string, image: string)
    requires Complete(s0.values)
    ensures var s := Run(s0, FillIn(title, description, price, planId, validity, image));
      && s.values[Title] == title && s.values[Description] == description
      && s.values[Price] == price && s.values[PlanId] == planId
      && s.values[Validity] == validity && s.values[Image] == image
      && s.isChanged
  {
    var es := FillIn(title, description, price, planId, validity, image);
    forall f: Field ensures Run(s0, es).values[f] == LastWritten(s0.values[f], f, es) {
      RunValues(s0, es, f);
    }
    FillInWrites(s0.values[Title], Title, title, description, price, planId, validity, image);
    FillInWrites(s0.values[Description], Description, title, description, price, planId, validity, image);
    FillInWrites(s0.values[Price], Price, title, description, price, planId, validity, image);
    FillInWrites(s0.values[PlanId], PlanId, title, description, price, planId, validity, image);
    FillInWrites(s0.values[Validity], Validity, title, description, price, planId, validity, image);
    FillInWrites(s0.values[Image], Image, title, description, price, planId, validity, image);
    assert es[0].Edit?;
    RunChanged(s0, es);
  }

  /** Filling every text field within its maximum and uploading any non-empty
      picture enables the button, while the record is valid only if the picture
      fits the image maximum of 32 characters: an encoded picture never does. */
  lemma FilledFormSubmitsAnyPicture(title: string, description: string, price: string,
                                    planId: string, validity: string, image: string)
    requires Acceptable(Title, title) && Acceptable(Description, description)
    requires Acceptable(Price, price) && Acceptable(PlanId, planId)
    requires Acceptable(Validity, validity) && |image| > 0
    ensures var s := Run(Mounted, FillIn(title, description, price, planId, validity, image));
      SubmitEnabled(s) && (s.isValid <==> |image| <= MaxLength(Image))
  {
    var es := FillIn(title, description, price, planId, validity, image);
    var s := Run(Mounted, es);
    MountedIsWellFormed();
    RunKeepsInvariant(Mounted, es);
    FilledValues(Mounted, title, description, price, planId, validity, image);
    forall f: TextField | f in s.touched ensures |s.values[f]| <= MaxLength(f) {
      EveryFieldListed(f);
    }
    forall f: Field ensures |s.values[f]| > 0 {
      EveryFieldListed(f);
    }
    SettledSubmitGate(s);
    if |image| > MaxLength(Image) {
      assert !Acceptable(Image, s.values[Image]);
    } else {
      forall f: Field ensures Acceptable(f, s.values[f]) {
        EveryFieldListed(f);
      }
    }
  }

  /** The request `createSubscriptions` receives: the admin and the six current values. */
  datatype CreateRequest = CreateSubscriptions(
    adminId: string, image: string, price: string, title: string,
    planId: string, validity: string, description: string)

  /** The form component: its state record, its loading flag, the notifications it
      enqueued, the requests it sent and how many times it asked its parent to reload. */
  class Form {
    var state: FormState
    var isLoading: bool
    var notices: seq<Notice>
    var requests: seq<CreateRequest>
    var reloads: nat

    ghost predicate Valid()
      reads this
    {
      WellFormed(state)
    }

    constructor ()
      ensures Valid()
      ensures state == Initial && !isLoading
      ensures notices == [] && requests == [] && reloads == 0
    {
      InitialIsWellFormed();
      state := Initial;
      isLoading := false;
      notices := [];
      requests := [];
      reloads := 0;
    }

    /** The effect that runs whenever `values` changes (and on mount). */
    method Revalidate()
      requires Valid()
      modifies this`state
      ensures Valid() && Settled(state)
      ensures state == Revalidated(old(state))
    {
      var errors := Validate(state.values);
      state := state.(isValid := errors == map[], errors := errors);
    }

    method OnChange(name: TextField, value: string)
      requires Valid()
      modifies this`state
      ensures Valid()
      ensures state == Changed(old(state), name, value)
    {
      state := state.(
        values := state.values[name := value],
        touched := state.touched[name := true],
        isChanged := true);
    }

    /** `file` is the data URL the reader produced, or `None` when reading failed:
        then the reader's error handler enqueues a notice and the upload never
        completes, so the record stays as it was. */
    method OnUploadPicture(file: Option<string>)
      requires Valid()
      modifies this`state, this`notices
      ensures Valid()
      ensures file.Some? ==> state == PictureUploaded(old(state), file.value) && notices == old(notices)
      ensures file.None? ==> state == old(state) && notices == old(notices) + [UploadFailedNotice]
    {
      match file
      case None =>
        notices := notices + [UploadFailedNotice];
      case Some(image) =>
        state := state.(values := state.values[Image := image]);
    }

    /** `onSaveDetails`: sends the admin and the six current values, then reports
        the server's message; only a success asks the parent to reload. The
        record itself, values included, is left as it was. */
    method OnSaveDetails(adminId: string, result: ApiResult<()>) returns (request: CreateRequest)
      requires Valid()
      modifies this`isLoading, this`notices, this`requests, this`reloads
      ensures Valid()
      ensures request == CreateSubscriptions(adminId, state.values[Image], state.values[Price],
        state.values[Title], state.values[PlanId], state.values[Validity], state.values[Description])
      ensures requests == old(requests) + [request]
      ensures !isLoading
      ensures notices == old(notices) + [Report(result)]
      ensures reloads == if result.error then old(reloads) else old(reloads) + 1
    {
      isLoading := true;
      var values := state.values;
      request := CreateSubscriptions(adminId, values[Image], values[Price], values[Title],
        values[PlanId], values[Validity], values[Description]);
      requests := requests + [request];
      if result.error {
        isLoading := false;
        notices := notices + [Notice(result.message, Error)];
        return;
      }
      notices := notices + [Notice(result.message, Success)];
      isLoading := false;
      reloads := reloads + 1;
    }
  }

  const UploadFailedNotice: Notice :=
    Notice("Error while uploading your picture, please try again", Error)
}
