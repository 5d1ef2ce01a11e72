/** The create/edit dialog of a client record
    (`src/components/cnd/ClienteFormModal.tsx`): its draft, the field-by-field
    update, the validation that builds an error map keyed by dotted field
    paths, and the submit gate. */
module ClienteForm {
  import opened JsStrings
  import opened ClienteTypes
  import opened CnpjMask
  import ClienteApi

  /** `initialFormData`: the draft of a new record. */
  const InitialFormData := ClienteDraft("", 30, "ativo", true, false, false, Empresa("", "", ""))

  /** The longest `idEmpresa` validation accepts, in UTF-16 code units. */
  const MaxIdEmpresaLength := 6

  /** The messages validation records. */
  datatype Message =
    | CnpjMessage | EmpresaCnpjMessage | IdEmpresaRequiredMessage | IdEmpresaTooLongMessage
    | NomeEmpresaMessage | PeriodicidadeMessage | StatusClienteMessage

  /** The text shown under the input; every message is non-empty, so truthy. */
  function MessageText(m: Message): (t: string)
    ensures t != []
  {
    match m
    case CnpjMessage => "CNPJ do Cliente inválido. Use o formato XX.XXX.XXX/XXXX-XX."
    case EmpresaCnpjMessage => "CNPJ da Empresa inválido. Use o formato XX.XXX.XXX/XXXX-XX."
    case IdEmpresaRequiredMessage => "ID da Empresa é obrigatório."
    case IdEmpresaTooLongMessage => "ID da Empresa não pode ter mais de 6 caracteres."
    case NomeEmpresaMessage => "Nome da Empresa é obrigatório."
    case PeriodicidadeMessage => "Periodicidade deve ser um número positivo."
    case StatusClienteMessage => "Status do Cliente é obrigatório."
  }

  /** The editable fields. A nested field of `empresa` is named
      `empresa.<name>` in the source, which splits the name on the dot. */
  datatype Field =
    | Cnpj | Periodicidade | StatusCliente | Nacional | Municipal | Estadual
    | EmpresaIdEmpresa | EmpresaNomeEmpresa | EmpresaCnpj

  /** The field name as the inputs pass it, which is also its key in the
      error map. */
  function Path(f: Field): string {
    match f
    case Cnpj => "cnpj"
    case Periodicidade => "periodicidade"
    case StatusCliente => "statusCliente"
    case Nacional => "nacional"
    case Municipal => "municipal"
    case Estadual => "estadual"
    case EmpresaIdEmpresa => "empresa.idEmpresa"
    case EmpresaNomeEmpresa => "empresa.nomeEmpresa"
    case EmpresaCnpj => "empresa.cnpj"
  }

  /** The fields validation can report. */
  const ErrorKeys := {Cnpj, EmpresaCnpj, EmpresaIdEmpresa, EmpresaNomeEmpresa, Periodicidade, StatusCliente}

  /** The fields that live inside `empresa`. */
  predicate IsNested(f: Field) {
    f.EmpresaIdEmpresa? || f.EmpresaNomeEmpresa? || f.EmpresaCnpj?
  }

  /** `field.split('.')` has more than one part exactly for the nested
      fields, and different fields have different paths: the error map, keyed
      here by field, is the source's map keyed by path. */
  lemma PathShape(f: Field, g: Field)
    ensures IsNested(f) <==> '.' in Path(f)
    ensures f != g ==> Path(f) != Path(g)
  {
  }

  /** The value an input hands to `handleInputChange`. */
  datatype FieldValue = Text(s: string) | Number(n: int) | Flag(b: bool)

  /** Each input passes a value of its field's type. */
  predicate ValueFits(f: Field, v: FieldValue) {
    match f
    case Periodicidade => v.Number?
    case Nacional | Municipal | Estadual => v.Flag?
    case _ => v.Text?
  }

  /** The current value of a field of the draft. */
  function Get(d: ClienteDraft, f: Field): (v: FieldValue)
    ensures ValueFits(f, v)
  {
    match f
    case Cnpj => Text(d.cnpj)
    case Periodicidade => Number(d.periodicidade)
    case StatusCliente => Text(d.statusCliente)
    case Nacional => Flag(d.nacional)
    case Municipal => Flag(d.municipal)
    case Estadual => Flag(d.estadual)
    case EmpresaIdEmpresa => Text(d.empresa.idEmpresa)
    case EmpresaNomeEmpresa => Text(d.empresa.nomeEmpresa)
    case EmpresaCnpj => Text(d.empresa.cnpj)
  }

  /** The draft update of `handleInputChange`: a nested name replaces one
      field of a copy of `empresa`, a top-level name one field of the draft;
      everything else is copied. */
  function SetField(d: ClienteDraft, f: Field, v: FieldValue): (r: ClienteDraft)
    requires ValueFits(f, v)
    ensures Get(r, f) == v
    ensures forall g :: g != f ==> Get(r, g) == Get(d, g)
  {
    match f
    case Cnpj => d.(cnpj := v.s)
    case Periodicidade => d.(periodicidade := v.n)
    case StatusCliente => d.(statusCliente := v.s)
    case Nacional => d.(nacional := v.b)
    case Municipal => d.(municipal := v.b)
    case Estadual => d.(estadual := v.b)
    case EmpresaIdEmpresa => d.(empresa := d.empresa.(idEmpresa := v.s))
    case EmpresaNomeEmpresa => d.(empresa := d.empresa.(nomeEmpresa := v.s))
    case EmpresaCnpj => d.(empresa := d.empresa.(cnpj := v.s))
  }

  /** `!s.trim()`. */
  predicate Blank(s: string) {
    Trim(s) == []
  }

  /** The rule for both CNPJ fields: blank, or not in the mask's format. */
  predicate CnpjInvalid(s: string) {
    Blank(s) || !MatchesCnpjRegex(s)
  }

  /** The message validation records under `key` for draft `d`, if any. The
      length check on `idEmpresa` runs after the blank check and overwrites
      its message. */
  function RuleMessage(d: ClienteDraft, key: Field): Option<Message> {
    match key
    case Cnpj => if CnpjInvalid(d.cnpj) then Some(CnpjMessage) else None
    case EmpresaCnpj => if CnpjInvalid(d.empresa.cnpj) then Some(EmpresaCnpjMessage) else None
    case EmpresaIdEmpresa =>
      if Utf16Length(d.empresa.idEmpresa) > MaxIdEmpresaLength then Some(IdEmpresaTooLongMessage)
      else if Blank(d.empresa.idEmpresa) then Some(IdEmpresaRequiredMessage)
      else None
    case EmpresaNomeEmpresa => if Blank(d.empresa.nomeEmpresa) then Some(NomeEmpresaMessage) else None
    case Periodicidade => if d.periodicidade <= 0 then Some(PeriodicidadeMessage) else None
    case StatusCliente => if Blank(d.statusCliente) then Some(StatusClienteMessage) else None
    case _ => None
  }

  /** Records the message of rule `k`, if it fails, over whatever `m` held
      under `k`. */
  function AddRule(m: map<Field, Message>, d: ClienteDraft, k: Field): map<Field, Message> {
    if RuleMessage(d, k).Some? then m[k := RuleMessage(d, k).value] else m
  }

  /** The rules in the order validation checks them. */
  const RuleOrder: seq<Field> := [Cnpj, EmpresaCnpj, EmpresaIdEmpresa, EmpresaNomeEmpresa, Periodicidade, StatusCliente]

  /** The error map once the first `n` rules have been checked, starting
      from an empty map. */
  function ErrorsAfter(d: ClienteDraft, n: nat): map<Field, Message>
    requires n <= |RuleOrder|
  {
    if n == 0 then map[] else AddRule(ErrorsAfter(d, n - 1), d, RuleOrder[n - 1])
  }

  /** The error map validation builds: every rule checked. */
  function ExpectedErrors(d: ClienteDraft): map<Field, Message> {
    ErrorsAfter(d, |RuleOrder|)
  }

  /** After `n` rules, exactly the failing ones among them are reported, each
      with its own message. */
  lemma {:induction false} ErrorsAfterMeaning(d: ClienteDraft, n: nat, k: Field)
    requires n <= |RuleOrder|
    ensures k in ErrorsAfter(d, n) <==> k in RuleOrder[..n] && RuleMessage(d, k).Some?
    ensures k in ErrorsAfter(d, n) ==> ErrorsAfter(d, n)[k] == RuleMessage(d, k).value
  {
    if n > 0 {
      ErrorsAfterMeaning(d, n - 1, k);
      assert RuleOrder[..n] == RuleOrder[..n - 1] + [RuleOrder[n - 1]];
    }
  }

  /** Every failing rule is reported, all of them together, each under its
      own key with its own message; nothing else is reported. */
  lemma ExpectedErrorsMeaning(d: ClienteDraft, k: Field)
    ensures k in ExpectedErrors(d) <==> k in ErrorKeys && RuleMessage(d, k).Some?
    ensures k in ExpectedErrors(d) ==> ExpectedErrors(d)[k] == RuleMessage(d, k).value
  {
    ErrorsAfterMeaning(d, |RuleOrder|, k);
    assert RuleOrder[..|RuleOrder|] == RuleOrder;
  }

  /** Validation reports only the six checked field paths. */
  lemma ExpectedErrorsWellFormed(d: ClienteDraft)
    ensures forall k :: k in ExpectedErrors(d) ==> k in ErrorKeys
  {
    forall k | k in ExpectedErrors(d) ensures k in ErrorKeys {
      ExpectedErrorsMeaning(d, k);
    }
  }

  // One lemma per rule: the validator's `if` for the n-th rule turns the map
  // built from the rules before it into the map built from the first n.

  lemma CnpjStep(d: ClienteDraft)
    ensures var m := ErrorsAfter(d, 0);
      ErrorsAfter(d, 1) == if CnpjInvalid(d.cnpj) then m[Cnpj := CnpjMessage] else m
  {
  }

  lemma EmpresaCnpjStep(d: ClienteDraft)
    ensures var m := ErrorsAfter(d, 1);
      ErrorsAfter(d, 2) == if CnpjInvalid(d.empresa.cnpj) then m[EmpresaCnpj := EmpresaCnpjMessage] else m
  {
  }

  lemma IdEmpresaStep(d: ClienteDraft)
    ensures var m := ErrorsAfter(d, 2);
      ErrorsAfter(d, 3) ==
      var m' := if Blank(d.empresa.idEmpresa) then m[EmpresaIdEmpresa := IdEmpresaRequiredMessage] else m;
      if Utf16Length(d.empresa.idEmpresa) > MaxIdEmpresaLength then m'[EmpresaIdEmpresa := IdEmpresaTooLongMessage] else m'
  {
  }

  lemma NomeEmpresaStep(d: ClienteDraft)
    ensures var m := ErrorsAfter(d, 3);
      ErrorsAfter(d, 4) == if Blank(d.empresa.nomeEmpresa) then m[EmpresaNomeEmpresa := NomeEmpresaMessage] else m
  {
  }

  lemma PeriodicidadeStep(d: ClienteDraft)
    ensures var m := ErrorsAfter(d, 4);
      ErrorsAfter(d, 5) == if d.periodicidade == 0 || d.periodicidade <= 0 then m[Periodicidade := PeriodicidadeMessage] else m
  {
  }

  lemma StatusClienteStep(d: ClienteDraft)
    ensures var m := ErrorsAfter(d, 5);
      ErrorsAfter(d, 6) == if Blank(d.statusCliente) then m[StatusCliente := StatusClienteMessage] else m
  {
  }

  /** What a draft must satisfy to be submitted, stated field by field. The
      three jurisdiction flags are not among the conditions. */
  predicate Acceptable(d: ClienteDraft) {
    && MatchesCnpjRegex(d.cnpj)
    && MatchesCnpjRegex(d.empresa.cnpj)
    && !Blank(d.empresa.idEmpresa)
    && Utf16Length(d.empresa.idEmpresa) <= MaxIdEmpresaLength
    && !Blank(d.empresa.nomeEmpresa)
    && d.periodicidade > 0
    && !Blank(d.statusCliente)
  }

  /** A masked CNPJ starts with a digit, so it is never blank: the trim test
      in front of the pattern never decides anything. */
  lemma MaskedNotBlank(s: string)
    requires MatchesCnpjRegex(s)
    ensures !Blank(s)
    ensures !CnpjInvalid(s)
  {
    TrimEmptyIff(s);
    assert MaskCharOk(0, s[0]);
  }

  /** Validation passes, i.e. its error map is empty, exactly for the
      acceptable drafts. */
  lemma ValidIff(d: ClienteDraft)
    ensures ExpectedErrors(d) == map[] <==> Acceptable(d)
  {
    if MatchesCnpjRegex(d.cnpj) { MaskedNotBlank(d.cnpj); }
    if MatchesCnpjRegex(d.empresa.cnpj) { MaskedNotBlank(d.empresa.cnpj); }
    if ExpectedErrors(d) == map[] {
      forall k | k in ErrorKeys ensures RuleMessage(d, k).None? {
        ExpectedErrorsMeaning(d, k);
      }
      assert RuleMessage(d, EmpresaIdEmpresa).None?;
      assert RuleMessage(d, Periodicidade).None?;
    } else {
      var k :| k in ExpectedErrors(d);
      ExpectedErrorsMeaning(d, k);
    }
  }

  /** What validation leaves behind: known keys only, and an empty map
      exactly for an acceptable draft. */
  lemma ValidationOutcome(d: ClienteDraft)
    ensures forall k :: k in ExpectedErrors(d) ==> k in ErrorKeys
    ensures |ExpectedErrors(d)| == 0 <==> Acceptable(d)
  {
    ExpectedErrorsWellFormed(d);
    ValidIff(d);
  }

  /** An `idEmpresa` longer than six UTF-16 code units is reported with the length
      message, even when it is also blank. */
  lemma IdEmpresaTooLongReported(d: ClienteDraft)
    requires Utf16Length(d.empresa.idEmpresa) > MaxIdEmpresaLength
    ensures EmpresaIdEmpresa in ExpectedErrors(d)
    ensures ExpectedErrors(d)[EmpresaIdEmpresa] == IdEmpresaTooLongMessage
    ensures !Acceptable(d)
  {
    ExpectedErrorsMeaning(d, EmpresaIdEmpresa);
  }

  /** Four emoji are only four characters but eight code units, so the
      length rule refuses them. */
  lemma EmojiIdEmpresaRefused(d: ClienteDraft)
    requires d.empresa.idEmpresa == "\U{1F600}\U{1F600}\U{1F600}\U{1F600}"
    ensures |d.empresa.idEmpresa| <= MaxIdEmpresaLength
    ensures EmpresaIdEmpresa in ExpectedErrors(d)
    ensures ExpectedErrors(d)[EmpresaIdEmpresa] == IdEmpresaTooLongMessage
    ensures !Acceptable(d)
  {
    Utf16LengthOfEmoji(d.empresa.idEmpresa);
    IdEmpresaTooLongReported(d);
  }

  /** The jurisdiction flags never affect validation. */
  lemma FlagsNotChecked(d: ClienteDraft, nacional: bool, municipal: bool, estadual: bool)
    ensures ExpectedErrors(d.(nacional := nacional, municipal := municipal, estadual := estadual))
         == ExpectedErrors(d)
  {
    var d' := d.(nacional := nacional, municipal := municipal, estadual := estadual);
    forall k ensures k in ExpectedErrors(d') <==> k in ExpectedErrors(d)
      ensures k in ExpectedErrors(d) ==> ExpectedErrors(d')[k] == ExpectedErrors(d)[k]
    {
      assert RuleMessage(d', k) == RuleMessage(d, k);
      ExpectedErrorsMeaning(d, k);
      ExpectedErrorsMeaning(d', k);
    }
  }

  /** So a draft monitoring no jurisdiction at all can pass. */
  lemma NoJurisdictionCanValidate(d: ClienteDraft)
    requires Acceptable(d)
    ensures ExpectedErrors(d.(nacional := false, municipal := false, estadual := false)) == map[]
  {
    FlagsNotChecked(d, false, false, false);
    ValidIff(d);
  }

  /** The blank draft of a new record fails on both CNPJs, the company id and
      the company name, and on nothing else. */
  lemma InitialFormDataErrors()
    ensures ExpectedErrors(InitialFormData).Keys == {Cnpj, EmpresaCnpj, EmpresaIdEmpresa, EmpresaNomeEmpresa}
  {
    var d := InitialFormData;
    TrimEmptyIff(d.statusCliente);
    assert d.statusCliente[0] == 'a';
    assert RuleMessage(d, Periodicidade).None?;
    assert RuleMessage(d, StatusCliente).None?;
    forall k ensures k in ExpectedErrors(d) <==> k in {Cnpj, EmpresaCnpj, EmpresaIdEmpresa, EmpresaNomeEmpresa} {
      ExpectedErrorsMeaning(d, k);
    }
  }

  /** A CNPJ typed into either CNPJ input is stored as `formatCNPJ` of the
      keystrokes; it passes validation exactly when 14 digits were typed. */
  lemma TypedCnpjValidIff(raw: string)
    ensures !CnpjInvalid(FormatCnpj(raw)) <==> |DigitsOf(raw)| >= MaxDigits
  {
    FormatCnpjMatchesIff(raw);
    if MatchesCnpjRegex(FormatCnpj(raw)) { MaskedNotBlank(FormatCnpj(raw)); }
  }

  /** A draft that passes validation carries the key `updateCliente` checks
      for, so passing the draft itself would get past that check. */
  lemma AcceptableDraftHasUpdateKey(d: ClienteDraft)
    requires Acceptable(d)
    ensures ClienteApi.HasIdEmpresa(ClienteApi.Dto(d))
  {
    TrimEmptyIff(d.empresa.idEmpresa);
  }

  /** Given an accepted draft itself, `updateCliente` would pass its local
      check and settle exactly as the server answers, like a create does. */
  lemma AcceptedDraftUpdateReachesServer(d: ClienteDraft, accepted: bool)
    requires Acceptable(d)
    ensures ClienteApi.UpdateCliente(ClienteApi.Dto(d), accepted) == ClienteApi.CreateCliente(d, accepted)
  {
    AcceptableDraftHasUpdateKey(d);
  }

  /** The dialog's state: the draft and the error map shown under the inputs. */
  class FormModal {
    var formData: ClienteDraft
    var errors: map<Field, Message>

    /** Only validation writes errors, so every key is one of the six
        checked field paths. `HandleInputChange` relies on it: editing a
        field the validator never checks leaves the error map alone. */
    ghost predicate Valid()
      reads this
    {
      forall k :: k in errors ==> k in ErrorKeys
    }

    /** The component mounts with `initialFormData` and no errors. */
    constructor ()
      ensures Valid()
      ensures formData == InitialFormData && errors == map[]
    {
      formData := InitialFormData;
      errors := map[];
    }

    /** The effect on `[cliente, isOpen]`: when open, the draft becomes a copy
        of the edited record, or `initialFormData` for a new one, and all
        errors are cleared; when closed, nothing changes. */
    method OpenEffect(isOpen: bool, cliente: Option<Cliente>)
      requires Valid()
      modifies this
      ensures Valid()
      ensures isOpen && cliente.Some? ==> formData == DraftOf(cliente.value) && errors == map[]
      ensures isOpen && cliente.None? ==> formData == InitialFormData && errors == map[]
      ensures !isOpen ==> formData == old(formData) && errors == old(errors)
    {
      if isOpen {
        if cliente.Some? {
          formData := DraftOf(cliente.value);
        } else {
          formData := InitialFormData;
        }
        errors := map[];
      }
    }

    /** `validateForm`: builds a fresh error map rule by rule, replaces the
        stored one with it, and reports whether it is empty. */
    method ValidateForm() returns (ok: bool)
      modifies this`errors
      ensures Valid()
      ensures errors == ExpectedErrors(formData)
      ensures ok <==> Acceptable(formData)
    {
      var d := formData;
      var newErrors: map<Field, Message> := map[];
      if CnpjInvalid(d.cnpj) {
        newErrors := newErrors[Cnpj := CnpjMessage];
      }
      CnpjStep(d);
      assert newErrors == ErrorsAfter(d, 1);
      if CnpjInvalid(d.empresa.cnpj) {
        newErrors := newErrors[EmpresaCnpj := EmpresaCnpjMessage];
      }
      EmpresaCnpjStep(d);
      assert newErrors == ErrorsAfter(d, 2);
      if Blank(d.empresa.idEmpresa) {
        newErrors := newErrors[EmpresaIdEmpresa := IdEmpresaRequiredMessage];
      }
      if Utf16Length(d.empresa.idEmpresa) > MaxIdEmpresaLength {
        newErrors := newErrors[EmpresaIdEmpresa := IdEmpresaTooLongMessage];
      }
      IdEmpresaStep(d);
      assert newErrors == ErrorsAfter(d, 3);
      if Blank(d.empresa.nomeEmpresa) {
        newErrors := newErrors[EmpresaNomeEmpresa := NomeEmpresaMessage];
      }
      NomeEmpresaStep(d);
      assert newErrors == ErrorsAfter(d, 4);
      if d.periodicidade == 0 || d.periodicidade <= 0 {
        newErrors := newErrors[Periodicidade := PeriodicidadeMessage];
      }
      PeriodicidadeStep(d);
      assert newErrors == ErrorsAfter(d, 5);
      if Blank(d.statusCliente) {
        newErrors := newErrors[StatusCliente := StatusClienteMessage];
      }
      StatusClienteStep(d);
      assert newErrors == ErrorsAfter(d, 6);
      ValidationOutcome(d);
      errors := newErrors;
      ok := |newErrors| == 0;
    }

    /** `handleSubmit` up to its `await`: validation runs first; only a
        draft that passes is handed to `onSubmit`, and nothing is handed over
        otherwise. Whether `onClose` follows depends on how that call settles
        (see the screen's submit flow). */
    method BeginSubmit() returns (payload: Option<ClienteDraft>)
      modifies this`errors
      ensures Valid()
      ensures errors == ExpectedErrors(formData)
      ensures payload.Some? <==> Acceptable(formData)
      ensures payload.Some? ==> payload.value == formData
    {
      var ok := ValidateForm();
      if !ok {
        return None;
      }
      payload := Some(formData);
    }

    /** `handleInputChange(field, value)`: the draft changes in that one field;
        a truthy error under the field's path is deleted and every other error
        stays. A jurisdiction flag never carries an error, so toggling one
        leaves the map as it was. */
    method HandleInputChange(field: Field, value: FieldValue)
      requires Valid() && ValueFits(field, value)
      modifies this
      ensures Valid()
      ensures formData == SetField(old(formData), field, value)
      ensures errors == old(errors) - {field}
      ensures field !in ErrorKeys ==> errors == old(errors)
    {
      formData := SetField(formData, field, value);
      if field in errors && MessageText(errors[field]) != [] {
        errors := errors - {field};
      }
    }
  }
}
