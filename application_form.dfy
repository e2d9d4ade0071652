/** The four-step merchant intake wizard (src/components/ApplicationForm.tsx):
    business details, personal details, documents, and the terms. The form
    keeps the current step, the field values, the four file slots, the
    acceptance box and a map of error texts keyed by input name; `Continue`
    validates the current step and either advances or, at the last step,
    submits. */
module ApplicationForm {
  import opened Types
  import opened HostedBackend
  import opened Submission
  import SubmitApplication

  /** The eleven text inputs of the form. */
  datatype FormState = FormState(
    dbaName: string,
    businessPhone: string,
    businessWebsite: string,
    businessAddress: string,
    shippingAddress: string,
    taxId: string,
    ownerFirstName: string,
    ownerLastName: string,
    personalPhone: string,
    email: string,
    ssn: string)

  const EmptyForm: FormState := FormState("", "", "", "", "", "", "", "", "", "", "")

  /** One text input, named as the form names it. */
  datatype Field =
    | DbaName | BusinessPhone | BusinessWebsite | BusinessAddress | ShippingAddress | TaxId
    | OwnerFirstName | OwnerLastName | PersonalPhone | Email | Ssn

  /** The input's `name`, which is also its key in the error map. */
  function CamelKey(f: Field): string {
    match f
    case DbaName => "dbaName"
    case BusinessPhone => "businessPhone"
    case BusinessWebsite => "businessWebsite"
    case BusinessAddress => "businessAddress"
    case ShippingAddress => "shippingAddress"
    case TaxId => "taxId"
    case OwnerFirstName => "ownerFirstName"
    case OwnerLastName => "ownerLastName"
    case PersonalPhone => "personalPhone"
    case Email => "email"
    case Ssn => "ssn"
  }

  /** The column the input is stored in. */
  function SnakeKey(f: Field): string {
    match f
    case DbaName => "dba_name"
    case BusinessPhone => "business_phone"
    case BusinessWebsite => "business_website"
    case BusinessAddress => "business_address"
    case ShippingAddress => "shipping_address"
    case TaxId => "tax_id"
    case OwnerFirstName => "owner_first_name"
    case OwnerLastName => "owner_last_name"
    case PersonalPhone => "personal_phone"
    case Email => "email"
    case Ssn => "ssn"
  }

  const SnakeKeys: set<string> := {
    "dba_name", "business_phone", "business_website", "business_address", "shipping_address", "tax_id",
    "owner_first_name", "owner_last_name", "personal_phone", "email", "ssn"}

  function FieldValue(d: FormState, f: Field): string {
    match f
    case DbaName => d.dbaName
    case BusinessPhone => d.businessPhone
    case BusinessWebsite => d.businessWebsite
    case BusinessAddress => d.businessAddress
    case ShippingAddress => d.shippingAddress
    case TaxId => d.taxId
    case OwnerFirstName => d.ownerFirstName
    case OwnerLastName => d.ownerLastName
    case PersonalPhone => d.personalPhone
    case Email => d.email
    case Ssn => d.ssn
  }

  /** Proof helper: the value of each validated input, read from its field. */
  lemma FieldValues(d: FormState)
    ensures FieldValue(d, DbaName) == d.dbaName && FieldValue(d, BusinessPhone) == d.businessPhone
    ensures FieldValue(d, BusinessAddress) == d.businessAddress && FieldValue(d, TaxId) == d.taxId
    ensures FieldValue(d, OwnerFirstName) == d.ownerFirstName && FieldValue(d, OwnerLastName) == d.ownerLastName
    ensures FieldValue(d, Email) == d.email && FieldValue(d, Ssn) == d.ssn
  {
  }

  /** `{ ...prev, [name]: value }` for the input `f`. */
  function WithField(d: FormState, f: Field, v: string): (r: FormState)
    ensures FieldValue(r, f) == v
    ensures forall g :: g != f ==> FieldValue(r, g) == FieldValue(d, g)
  {
    match f
    case DbaName => d.(dbaName := v)
    case BusinessPhone => d.(businessPhone := v)
    case BusinessWebsite => d.(businessWebsite := v)
    case BusinessAddress => d.(businessAddress := v)
    case ShippingAddress => d.(shippingAddress := v)
    case TaxId => d.(taxId := v)
    case OwnerFirstName => d.(ownerFirstName := v)
    case OwnerLastName => d.(ownerLastName := v)
    case PersonalPhone => d.(personalPhone := v)
    case Email => d.(email := v)
    case Ssn => d.(ssn := v)
  }

  /** The step whose page shows the input. */
  function FieldStep(f: Field): (s: int)
    ensures s == 1 || s == 2
    ensures s == 1 <==> f in {DbaName, BusinessPhone, BusinessWebsite, BusinessAddress, ShippingAddress, TaxId}
  {
    match f
    case DbaName | BusinessPhone | BusinessWebsite | BusinessAddress | ShippingAddress | TaxId => 1
    case OwnerFirstName | OwnerLastName | PersonalPhone | Email | Ssn => 2
  }

  // ---------------------------------------------------------------------
  // The record handed to the submit handler

  /** `mappedData`: every input copied under its column name. */
  function MapFormData(d: FormState): map<string, string>
  {
    map["dba_name" := d.dbaName,
        "business_phone" := d.businessPhone,
        "business_website" := d.businessWebsite,
        "business_address" := d.businessAddress,
        "shipping_address" := d.shippingAddress,
        "tax_id" := d.taxId,
        "owner_first_name" := d.ownerFirstName,
        "owner_last_name" := d.ownerLastName,
        "personal_phone" := d.personalPhone,
        "email" := d.email,
        "ssn" := d.ssn]
  }

  /** Reads the inputs back from a record holding every column. */
  function FormDataOf(m: map<string, string>): FormState
    requires SnakeKeys <= m.Keys
  {
    FormState(m["dba_name"], m["business_phone"], m["business_website"], m["business_address"],
              m["shipping_address"], m["tax_id"], m["owner_first_name"], m["owner_last_name"],
              m["personal_phone"], m["email"], m["ssn"])
  }

  /** Every input lands under its own column with its own value. */
  lemma MapFormDataCopies(d: FormState, f: Field)
    ensures MapFormData(d).Keys == SnakeKeys
    ensures SnakeKey(f) in MapFormData(d) && MapFormData(d)[SnakeKey(f)] == FieldValue(d, f)
  {
  }

  /** No input is lost or merged with another: the record gives the inputs
      back. */
  lemma MapFormDataRoundTrip(d: FormState)
    ensures FormDataOf(MapFormData(d)) == d
  {
  }

  lemma MapFormDataInjective(d1: FormState, d2: FormState)
    requires MapFormData(d1) == MapFormData(d2)
    ensures d1 == d2
  {
    MapFormDataRoundTrip(d1);
    MapFormDataRoundTrip(d2);
  }

  /** The row the form's own handler inserts spells out its columns: the
      signed-in user, each input under its column, the four document URLs in
      their fixed order, and status `pending`. No input column is `user_id`,
      a URL column or `status`, so that row is the spread row the submit page
      builds from `mappedData`, and this model uses the one definition for
      both. */
  lemma FormRowColumns(userId: string, d: FormState, urls: DocumentUrls)
    ensures var r := ComposeRow(userId, MapFormData(d), urls);
      && r["user_id"] == Str(userId)
      && r["status"] == Str("pending")
  {
    MapFormDataCopies(d, DbaName);
    assert "user_id" !in SnakeKeys;
    ComposeRowUser(userId, MapFormData(d), urls);
    ComposeRowColumns(userId, MapFormData(d), urls);
  }

  /** Each input's column holds that input's value. */
  lemma FormRowInput(userId: string, d: FormState, urls: DocumentUrls, f: Field)
    ensures ComposeRow(userId, MapFormData(d), urls)[SnakeKey(f)] == Str(FieldValue(d, f))
  {
    MapFormDataCopies(d, f);
    assert SnakeKey(f) !in UrlColumnNames && SnakeKey(f) != "status";
    ComposeRowField(userId, MapFormData(d), urls, SnakeKey(f));
  }

  // ---------------------------------------------------------------------
  // File slots

  datatype Slot = DriversLicense | BusinessLicense | VoidCheck | AdditionalDocument

  function SlotKey(s: Slot): string {
    match s
    case DriversLicense => "driversLicense"
    case BusinessLicense => "businessLicense"
    case VoidCheck => "voidCheck"
    case AdditionalDocument => "additionalDocument"
  }

  function SlotFile(files: UploadedFiles, s: Slot): Option<File> {
    match s
    case DriversLicense => files.driversLicense
    case BusinessLicense => files.businessLicense
    case VoidCheck => files.voidCheck
    case AdditionalDocument => files.additionalDocument
  }

  /** `{ ...prev, [field]: file }`. */
  function SetSlot(files: UploadedFiles, s: Slot, file: Option<File>): (r: UploadedFiles)
    ensures SlotFile(r, s) == file
    ensures forall t :: t != s ==> SlotFile(r, t) == SlotFile(files, t)
  {
    match s
    case DriversLicense => files.(driversLicense := file)
    case BusinessLicense => files.(businessLicense := file)
    case VoidCheck => files.(voidCheck := file)
    case AdditionalDocument => files.(additionalDocument := file)
  }

  // ---------------------------------------------------------------------
  // Validation

  /** The keys of the error map: an input, a file slot, the acceptance box,
      or the whole form. */
  datatype ErrorKey = InputError(f: Field) | SlotError(s: Slot) | AgreeError | FormError

  /** The key as the form spells it. */
  function KeyName(k: ErrorKey): string {
    match k
    case InputError(f) => CamelKey(f)
    case SlotError(s) => SlotKey(s)
    case AgreeError => "agree"
    case FormError => "form"
  }

  const RequiredText: string := "Required"
  const AgreeText: string := "Acceptance is required"

  const StepOneInputs: seq<Field> := [DbaName, BusinessPhone, BusinessAddress, TaxId]
  const StepTwoInputs: seq<Field> := [OwnerFirstName, OwnerLastName, Email, Ssn]
  /** The additional document is not among them. */
  const RequiredSlots: seq<Slot> := [DriversLicense, BusinessLicense, VoidCheck]

  /** `if (!value) newErrors[key] = 'Required'`. */
  function Note(errors: map<ErrorKey, string>, missing: bool, key: ErrorKey): map<ErrorKey, string>
  {
    if missing then errors[key := RequiredText] else errors
  }

  /** One `Required` entry per empty input among `fs`, entered in the
      order of `fs`. */
  function MissingInputs(fs: seq<Field>, d: FormState): (e: map<ErrorKey, string>)
    ensures forall k :: k in e ==> k.InputError? && k.f in fs && FieldValue(d, k.f) == "" && e[k] == RequiredText
  {
    if fs == [] then map[]
    else Note(MissingInputs(fs[..|fs| - 1], d), FieldValue(d, fs[|fs| - 1]) == "", InputError(fs[|fs| - 1]))
  }

  /** Every empty input among `fs` has its entry. */
  lemma {:induction false} MissingInputsComplete(fs: seq<Field>, d: FormState)
    ensures forall f :: f in fs && FieldValue(d, f) == "" ==> InputError(f) in MissingInputs(fs, d)
  {
    if fs != [] {
      MissingInputsComplete(fs[..|fs| - 1], d);
      assert forall f :: f in fs ==> f in fs[..|fs| - 1] || f == fs[|fs| - 1];
    }
  }

  /** The entries depend only on the inputs listed. */
  lemma {:induction false} MissingInputsFrame(fs: seq<Field>, d1: FormState, d2: FormState)
    requires forall i :: 0 <= i < |fs| ==> FieldValue(d1, fs[i]) == FieldValue(d2, fs[i])
    ensures MissingInputs(fs, d1) == MissingInputs(fs, d2)
  {
    if fs != [] {
      MissingInputsFrame(fs[..|fs| - 1], d1, d2);
    }
  }

  /** One `Required` entry per empty slot among `ss`, entered in the order
      of `ss`. */
  function MissingSlots(ss: seq<Slot>, files: UploadedFiles): (e: map<ErrorKey, string>)
    ensures forall k :: k in e ==> k.SlotError? && k.s in ss && SlotFile(files, k.s).None? && e[k] == RequiredText
  {
    if ss == [] then map[]
    else Note(MissingSlots(ss[..|ss| - 1], files), SlotFile(files, ss[|ss| - 1]).None?, SlotError(ss[|ss| - 1]))
  }

  /** Every empty slot among `ss` has its entry. */
  lemma {:induction false} MissingSlotsComplete(ss: seq<Slot>, files: UploadedFiles)
    ensures forall s :: s in ss && SlotFile(files, s).None? ==> SlotError(s) in MissingSlots(ss, files)
  {
    if ss != [] {
      MissingSlotsComplete(ss[..|ss| - 1], files);
      assert forall s :: s in ss ==> s in ss[..|ss| - 1] || s == ss[|ss| - 1];
    }
  }

  /** The entries depend only on the slots listed. */
  lemma {:induction false} MissingSlotsFrame(ss: seq<Slot>, files1: UploadedFiles, files2: UploadedFiles)
    requires forall i :: 0 <= i < |ss| ==> SlotFile(files1, ss[i]) == SlotFile(files2, ss[i])
    ensures MissingSlots(ss, files1) == MissingSlots(ss, files2)
  {
    if ss != [] {
      MissingSlotsFrame(ss[..|ss| - 1], files1, files2);
    }
  }

  /** The first step's checks, one after the other as `validateStep` makes
      them. */
  function StepOneErrors(d: FormState): map<ErrorKey, string> {
    var m1 := Note(map[], d.dbaName == "", InputError(DbaName));
    var m2 := Note(m1, d.businessPhone == "", InputError(BusinessPhone));
    var m3 := Note(m2, d.businessAddress == "", InputError(BusinessAddress));
    Note(m3, d.taxId == "", InputError(TaxId))
  }

  /** The second step's checks, one after the other. */
  function StepTwoErrors(d: FormState): map<ErrorKey, string> {
    var m1 := Note(map[], d.ownerFirstName == "", InputError(OwnerFirstName));
    var m2 := Note(m1, d.ownerLastName == "", InputError(OwnerLastName));
    var m3 := Note(m2, d.email == "", InputError(Email));
    Note(m3, d.ssn == "", InputError(Ssn))
  }

  /** The third step's checks, one after the other. */
  function StepThreeErrors(files: UploadedFiles): map<ErrorKey, string> {
    var m1 := Note(map[], files.driversLicense.None?, SlotError(DriversLicense));
    var m2 := Note(m1, files.businessLicense.None?, SlotError(BusinessLicense));
    Note(m2, files.voidCheck.None?, SlotError(VoidCheck))
  }

  /** The error map `validateStep` builds at `step`. */
  function ExpectedErrors(step: int, d: FormState, files: UploadedFiles, agree: bool): map<ErrorKey, string> {
    if step == 1 then StepOneErrors(d)
    else if step == 2 then StepTwoErrors(d)
    else if step == 3 then StepThreeErrors(files)
    else if step == 4 && !agree then map[AgreeError := AgreeText]
    else map[]
  }

  /** The first step's checks are the generic check of its four inputs. */
  lemma StepOneInOrder(d: FormState)
    ensures StepOneErrors(d) == MissingInputs(StepOneInputs, d)
  {
    var fs := StepOneInputs;
    assert fs[..1][..0] == [] && fs[..2][..1] == fs[..1] && fs[..3][..2] == fs[..2] && fs[..3] == fs[..|fs| - 1];
    FieldValues(d);
    var m1 := Note(map[], d.dbaName == "", InputError(DbaName));
    assert MissingInputs(fs[..1], d) == m1;
    var m2 := Note(m1, d.businessPhone == "", InputError(BusinessPhone));
    assert MissingInputs(fs[..2], d) == m2;
    assert MissingInputs(fs[..3], d) == Note(m2, d.businessAddress == "", InputError(BusinessAddress));
  }

  /** The second step's checks are the generic check of its four inputs. */
  lemma StepTwoInOrder(d: FormState)
    ensures StepTwoErrors(d) == MissingInputs(StepTwoInputs, d)
  {
    var fs := StepTwoInputs;
    assert fs[..1][..0] == [] && fs[..2][..1] == fs[..1] && fs[..3][..2] == fs[..2] && fs[..3] == fs[..|fs| - 1];
    FieldValues(d);
    var m1 := Note(map[], d.ownerFirstName == "", InputError(OwnerFirstName));
    assert MissingInputs(fs[..1], d) == m1;
    var m2 := Note(m1, d.ownerLastName == "", InputError(OwnerLastName));
    assert MissingInputs(fs[..2], d) == m2;
    assert MissingInputs(fs[..3], d) == Note(m2, d.email == "", InputError(Email));
  }

  /** The third step's checks are the generic check of the required slots. */
  lemma StepThreeInOrder(files: UploadedFiles)
    ensures StepThreeErrors(files) == MissingSlots(RequiredSlots, files)
  {
    var ss := RequiredSlots;
    assert ss[..1][..0] == [] && ss[..2][..1] == ss[..1] && ss[..2] == ss[..|ss| - 1];
    var m1 := Note(map[], files.driversLicense.None?, SlotError(DriversLicense));
    assert MissingSlots(ss[..1], files) == m1;
    assert MissingSlots(ss[..2], files) == Note(m1, files.businessLicense.None?, SlotError(BusinessLicense));
  }

  predicate StepPasses(step: int, d: FormState, files: UploadedFiles, agree: bool) {
    ExpectedErrors(step, d, files, agree) == map[]
  }

  /** At the first step the check passes exactly when the business name,
      phone, address and tax id are filled in; each empty one gives exactly
      one `Required` entry, under its own input's key. */
  lemma StepOneRules(d: FormState, files: UploadedFiles, agree: bool)
    ensures StepPasses(1, d, files, agree)
        <==> d.dbaName != "" && d.businessPhone != "" && d.businessAddress != "" && d.taxId != ""
    ensures var e := ExpectedErrors(1, d, files, agree);
      && (InputError(DbaName) in e <==> d.dbaName == "")
      && (InputError(BusinessPhone) in e <==> d.businessPhone == "")
      && (InputError(BusinessAddress) in e <==> d.businessAddress == "")
      && (InputError(TaxId) in e <==> d.taxId == "")
      && e.Keys <= {InputError(DbaName), InputError(BusinessPhone), InputError(BusinessAddress), InputError(TaxId)}
  {
    StepOneInOrder(d);
    MissingInputsComplete(StepOneInputs, d);
    FieldValues(d);
  }

  /** At the second step the check passes exactly when the owner's names,
      e-mail and social security number are filled in. */
  lemma StepTwoRules(d: FormState, files: UploadedFiles, agree: bool)
    ensures StepPasses(2, d, files, agree)
        <==> d.ownerFirstName != "" && d.ownerLastName != "" && d.email != "" && d.ssn != ""
    ensures var e := ExpectedErrors(2, d, files, agree);
      && (InputError(OwnerFirstName) in e <==> d.ownerFirstName == "")
      && (InputError(OwnerLastName) in e <==> d.ownerLastName == "")
      && (InputError(Email) in e <==> d.email == "")
      && (InputError(Ssn) in e <==> d.ssn == "")
      && e.Keys <= {InputError(OwnerFirstName), InputError(OwnerLastName), InputError(Email), InputError(Ssn)}
  {
    StepTwoInOrder(d);
    MissingInputsComplete(StepTwoInputs, d);
    FieldValues(d);
  }

  /** At the third step the check passes exactly when the three required
      documents are present. */
  lemma StepThreeRules(d: FormState, files: UploadedFiles, agree: bool)
    ensures StepPasses(3, d, files, agree) <==> RequiredPresent(files)
    ensures var e := ExpectedErrors(3, d, files, agree);
      && (SlotError(DriversLicense) in e <==> files.driversLicense.None?)
      && (SlotError(BusinessLicense) in e <==> files.businessLicense.None?)
      && (SlotError(VoidCheck) in e <==> files.voidCheck.None?)
      && e.Keys <= {SlotError(DriversLicense), SlotError(BusinessLicense), SlotError(VoidCheck)}
  {
    StepThreeInOrder(files);
    MissingSlotsComplete(RequiredSlots, files);
  }

  /** Passing the documents step means the three required documents are
      there, which is what the submission needs. */
  lemma DocumentsStepPassed(d: FormState, files: UploadedFiles, agree: bool)
    requires StepPasses(3, d, files, agree)
    ensures RequiredPresent(files)
  {
    StepThreeRules(d, files, agree);
  }

  /** Whatever the step, the additional document never affects validation. */
  lemma AdditionalNeverChecked(step: int, d: FormState, files: UploadedFiles, agree: bool, file: Option<File>)
    ensures ExpectedErrors(step, d, SetSlot(files, AdditionalDocument, file), agree)
         == ExpectedErrors(step, d, files, agree)
  {
    StepThreeInOrder(files);
    StepThreeInOrder(SetSlot(files, AdditionalDocument, file));
    MissingSlotsFrame(RequiredSlots, SetSlot(files, AdditionalDocument, file), files);
  }

  /** A step's check reads only that step's inputs. */
  lemma OtherStepsInputs(step: int, d: FormState, files: UploadedFiles, agree: bool, f: Field, v: string)
    requires FieldStep(f) != step
    ensures ExpectedErrors(step, WithField(d, f, v), files, agree) == ExpectedErrors(step, d, files, agree)
  {
    if step == 1 {
      StepOneInOrder(d);
      StepOneInOrder(WithField(d, f, v));
      MissingInputsFrame(StepOneInputs, WithField(d, f, v), d);
    } else if step == 2 {
      StepTwoInOrder(d);
      StepTwoInOrder(WithField(d, f, v));
      MissingInputsFrame(StepTwoInputs, WithField(d, f, v), d);
    }
  }

  /** `if (errors[name]) setErrors({ ...prev, [name]: '' })`: an error entry
      under `key` is emptied, every other entry stays as it was, and no key
      is added or removed. */
  function ClearError(errors: map<ErrorKey, string>, key: ErrorKey): (r: map<ErrorKey, string>)
    ensures r.Keys == errors.Keys
    ensures key in errors ==> r[key] == ""
    ensures forall k :: k in errors && k != key ==> r[k] == errors[k]
  {
    if key in errors && errors[key] != "" then errors[key := ""] else errors
  }

  const SignInFirst: string := "Please sign in first"
  const SuccessRedirect: string := "/dashboard?success=true"

  /** The form's own handler reports upload failures with the store's
      message alone. */
  const FormTexts: FailureTexts := FailureTexts(SignInFirst, "")

  class IntakeForm {
    var step: int
    var agree: bool
    var errors: map<ErrorKey, string>
    var loading: bool
    var formData: FormState
    var files: UploadedFiles
    /** Where the form sent the browser, if anywhere. */
    var redirect: Option<string>

    /** The step is one of the four, and every step before it passed its
        check (the inputs of a step are shown only on that step). */
    predicate Valid()
      reads this`step, this`formData, this`files, this`agree
    {
      && 1 <= step <= 4
      && (step > 1 ==> StepPasses(1, formData, files, agree))
      && (step > 2 ==> StepPasses(2, formData, files, agree))
      && (step > 3 ==> StepPasses(3, formData, files, agree))
    }

    constructor ()
      ensures Valid()
      ensures step == 1 && !agree && errors == map[] && !loading
      ensures formData == EmptyForm && files == NoFiles && redirect.None?
    {
      step := 1;
      agree := false;
      errors := map[];
      loading := false;
      formData := EmptyForm;
      files := NoFiles;
      redirect := None;
    }

    /** `handleInputChange` for an input shown on the current step. */
    method HandleInputChange(f: Field, v: string)
      requires Valid() && FieldStep(f) == step
      modifies this`formData, this`errors
      ensures Valid()
      ensures formData == WithField(old(formData), f, v)
      ensures errors == ClearError(old(errors), InputError(f))
    {
      if step > 1 {
        OtherStepsInputs(1, formData, files, agree, f, v);
      }
      if step > 2 {
        OtherStepsInputs(2, formData, files, agree, f, v);
      }
      formData := WithField(formData, f, v);
      errors := ClearError(errors, InputError(f));
    }

    /** `handleFileChange` on the documents step; `None` removes the file. */
    method HandleFileChange(s: Slot, file: Option<File>)
      requires Valid() && step == 3
      modifies this`files, this`errors
      ensures Valid()
      ensures files == SetSlot(old(files), s, file)
      ensures errors == ClearError(old(errors), SlotError(s))
    {
      files := SetSlot(files, s, file);
      errors := ClearError(errors, SlotError(s));
    }

    /** The acceptance box. */
    method ToggleAgree()
      requires Valid()
      modifies this`agree
      ensures Valid()
      ensures agree == !old(agree)
    {
      agree := !agree;
    }

    /** `validateStep`: the error map is replaced by the current step's
        failures, so errors left from other steps are dropped. */
    method ValidateStep() returns (ok: bool)
      modifies this`errors
      ensures errors == ExpectedErrors(step, formData, files, agree)
      ensures ok <==> errors == map[]
    {
      var newErrors: map<ErrorKey, string> := map[];
      if step == 1 {
        newErrors := Note(newErrors, formData.dbaName == "", InputError(DbaName));
        newErrors := Note(newErrors, formData.businessPhone == "", InputError(BusinessPhone));
        newErrors := Note(newErrors, formData.businessAddress == "", InputError(BusinessAddress));
        newErrors := Note(newErrors, formData.taxId == "", InputError(TaxId));
      } else if step == 2 {
        newErrors := Note(newErrors, formData.ownerFirstName == "", InputError(OwnerFirstName));
        newErrors := Note(newErrors, formData.ownerLastName == "", InputError(OwnerLastName));
        newErrors := Note(newErrors, formData.email == "", InputError(Email));
        newErrors := Note(newErrors, formData.ssn == "", InputError(Ssn));
      } else if step == 3 {
        newErrors := Note(newErrors, files.driversLicense.None?, SlotError(DriversLicense));
        newErrors := Note(newErrors, files.businessLicense.None?, SlotError(BusinessLicense));
        newErrors := Note(newErrors, files.voidCheck.None?, SlotError(VoidCheck));
      } else if step == 4 && !agree {
        newErrors := newErrors[AgreeError := AgreeText];
      }
      errors := newErrors;
      ok := |errors.Keys| == 0;
    }

    /** The `Back` button, shown from the second step on. */
    method Back()
      requires Valid() && step > 1
      modifies this`step
      ensures Valid()
      ensures step == old(step) - 1
    {
      step := step - 1;
    }

    /** The form's own `handleSubmit`, with `user` the signed-in user (if
        any) and `now` the clock. Every upload is issued, the row is inserted
        only when all of them succeeded, success goes to the dashboard and
        any failure becomes the single `form` error. */
    method HandleSubmit(user: Option<User>, backend: Backend, now: nat)
      requires RequiredPresent(files)
      modifies this`loading, this`errors, this`redirect, backend
      ensures var run := SubmitRun(user, MapFormData(formData), files, now, backend.store, FormTexts);
        && backend.calls == old(backend.calls) + run.calls
        && !loading
        && (run.failure.None? ==> redirect == Some(SuccessRedirect) && errors == old(errors))
        && (run.failure.Some? ==> redirect == old(redirect) && errors == map[FormError := run.failure.value])
    {
      loading := true;
      var failure := Submit(user, MapFormData(formData), files, now, FormTexts, backend);
      if failure.Some? {
        errors := map[FormError := failure.value];
      } else {
        redirect := Some(SuccessRedirect);
      }
      loading := false;
    }

    /** The hosting page's `handleFinalSubmit` ran on the form's data, the
        backend's log having been `callsBefore` and the page's `success`
        flag `successBefore`: the backend saw the submission's calls, the
        page's `submitting` flag is off again, and `success` or `error`
        reports the outcome. */
    predicate HostSubmitted(host: SubmitApplication.SubmitApplicationPage, backend: Backend, now: nat,
                            callsBefore: seq<Call>, successBefore: bool)
      reads this`formData, this`files, host, backend
    {
      && RequiredPresent(files)
      && var run := SubmitRun(host.user, MapFormData(formData), files, now, backend.store,
                              SubmitApplication.PageTexts);
      && backend.calls == callsBefore + run.calls
      && !host.submitting
      && (run.failure.None? ==> host.success && host.error.None?)
      && (run.failure.Some? ==>
            host.success == successBefore
            && host.error == Some(SubmitApplication.ShownError(run.failure.value)))
    }

    /** The form's own submission ran, the backend's log having been
        `callsBefore`, the redirect `redirectBefore` and the error map
        `errorsBefore`: the backend saw the submission's calls; success goes
        to the dashboard and keeps the error map, a failure stays on the form
        with the single `form` error. */
    predicate SelfSubmitted(user: Option<User>, backend: Backend, now: nat, callsBefore: seq<Call>,
                            redirectBefore: Option<string>, errorsBefore: map<ErrorKey, string>)
      reads this`formData, this`files, this`errors, this`redirect, backend
    {
      && RequiredPresent(files)
      && var run := SubmitRun(user, MapFormData(formData), files, now, backend.store, FormTexts);
      && backend.calls == callsBefore + run.calls
      && (run.failure.None? ==> redirect == Some(SuccessRedirect) && errors == errorsBefore)
      && (run.failure.Some? ==> redirect == redirectBefore && errors == map[FormError := run.failure.value])
    }

    /** The last step of `handleNext`, once every step has passed: the
        loader is shown while `mappedData` and the files go to the hosting
        page's handler when there is one, or to the form's own submission
        otherwise. */
    method FinishSubmit(user: Option<User>, host: Option<SubmitApplication.SubmitApplicationPage>,
                        backend: Backend, now: nat)
      requires RequiredPresent(files)
      modifies this`loading, this`errors, this`redirect, backend
      modifies if host.Some? then {host.value} else {}
      ensures !loading
      ensures host.Some? ==>
        && errors == old(errors) && redirect == old(redirect) && host.value.user == old(host.value.user)
        && host.value.loading == old(host.value.loading) && host.value.redirect == old(host.value.redirect)
        && HostSubmitted(host.value, backend, now, old(backend.calls), old(host.value.success))
      ensures host.None? ==>
        SelfSubmitted(user, backend, now, old(backend.calls), old(redirect), old(errors))
    {
      loading := true;
      var mapped := MapFormData(formData);
      if host.Some? {
        host.value.HandleFinalSubmit(mapped, files, now, backend);
      } else {
        HandleSubmit(user, backend, now);
      }
      loading := false;
    }

    /** The validation part of `handleNext`: a failing step keeps the step
        and shows its errors; a passing step before the last advances by one;
        a passing last step asks for the submission. */
    method Advance() returns (submit: bool)
      requires Valid()
      modifies this`step, this`errors
      ensures Valid()
      ensures var expected := ExpectedErrors(old(step), formData, files, agree);
        && (expected != map[] ==> step == old(step) && errors == expected && !submit)
        && (expected == map[] && old(step) < 4 ==> step == old(step) + 1 && errors == map[] && !submit)
        && (expected == map[] && old(step) == 4 ==> step == 4 && errors == map[] && submit)
    {
      var ok := ValidateStep();
      submit := false;
      if ok {
        if step < 4 {
          step := step + 1;
        } else {
          submit := true;
        }
      }
    }

    /** `handleNext` (the `Continue` / `Submit Application` button). It
        validates the current step; on failure nothing but the error map
        changes; before the last step it advances by one; at the last step it
        hands `mappedData` and the files to the hosting page's handler when
        there is one, and submits by itself otherwise. */
    method HandleNext(user: Option<User>, host: Option<SubmitApplication.SubmitApplicationPage>,
                      backend: Backend, now: nat)
      requires Valid()
      modifies this`step, this`errors, this`loading, this`redirect, backend
      modifies if host.Some? then {host.value} else {}
      ensures Valid()
      ensures formData == old(formData) && files == old(files) && agree == old(agree)
      ensures var expected := ExpectedErrors(old(step), formData, files, agree);
        expected != map[] ==>
          && step == old(step) && errors == expected
          && loading == old(loading) && redirect == old(redirect)
          && backend.calls == old(backend.calls)
          && (host.Some? ==> unchanged(host.value))
      ensures var expected := ExpectedErrors(old(step), formData, files, agree);
        expected == map[] && old(step) < 4 ==>
          && step == old(step) + 1 && errors == map[]
          && loading == old(loading) && redirect == old(redirect)
          && backend.calls == old(backend.calls)
          && (host.Some? ==> unchanged(host.value))
      ensures var expected := ExpectedErrors(old(step), formData, files, agree);
        expected == map[] && old(step) == 4 && host.Some? ==>
          && step == 4 && errors == map[] && !loading && redirect == old(redirect)
          && host.value.user == old(host.value.user)
          && host.value.loading == old(host.value.loading) && host.value.redirect == old(host.value.redirect)
          && HostSubmitted(host.value, backend, now, old(backend.calls), old(host.value.success))
      ensures var expected := ExpectedErrors(old(step), formData, files, agree);
        expected == map[] && old(step) == 4 && host.None? ==>
          && step == 4 && !loading
          && SelfSubmitted(user, backend, now, old(backend.calls), old(redirect), map[])
    {
      var submit := Advance();
      if submit {
        DocumentsStepPassed(formData, files, agree);
        FinishSubmit(user, host, backend, now);
      }
    }
  }
}
