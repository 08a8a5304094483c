/** `CredentialForm`: create a credential, or edit the one it was opened on. */
module CredentialForm {
  import opened Wrappers
  import opened Strings

  /** The credential types offered (`CredentialTypeOptions`). */
  const CredentialTypes := ["OPENAI", "ANTHROPIC", "GOOGLE_GEMINI"]

  datatype CredentialValues = CredentialValues(name: string, credentialType: string, value: string)

  /** The credential the form was opened on; its `id` may be absent. */
  datatype InitialData = InitialData(id: Option<string>, name: string, credentialType: string, value: string)

  /** `formSchema`: a name, a known type and a value. */
  predicate Valid(v: CredentialValues) {
    |v.name| >= 1 && v.credentialType in CredentialTypes && |v.value| >= 1
  }

  /** `!!initialData?.id` */
  predicate IsEdit(initialData: Option<InitialData>) {
    initialData.Some? && Truthy(initialData.value.id)
  }

  /** `initialData || { name: "", type: OPENAI, value: "" }` */
  function Defaults(initialData: Option<InitialData>): (v: CredentialValues)
    ensures initialData.None? ==> v == CredentialValues("", "OPENAI", "") && !Valid(v)
    ensures initialData.Some? ==>
              v == CredentialValues(initialData.value.name, initialData.value.credentialType, initialData.value.value)
  {
    match initialData
    case None => CredentialValues("", "OPENAI", "")
    case Some(d) => CredentialValues(d.name, d.credentialType, d.value)
  }

  /** `isEdit ? "Edit Credential" : "Create Credential"` */
  function Title(initialData: Option<InitialData>): (t: string)
    ensures t == "Edit Credential" <==> IsEdit(initialData)
    ensures t == "Create Credential" <==> !IsEdit(initialData)
  {
    if IsEdit(initialData) then "Edit Credential" else "Create Credential"
  }

  /** The mutation `onSubmit` calls. */
  datatype Mutation =
    | Update(id: string, values: CredentialValues)   // `updateCredential.mutateAsync({ id, ...values })`
    | Create(values: CredentialValues)               // `createCredential.mutateAsync(values)`

  /** The form's submissions. */
  class Form {
    const initialData: Option<InitialData>
    /** The mutations called, in order. */
    var calls: seq<Mutation>

    /** Every mutation called carries values the schema accepts. */
    ghost predicate CallsValid()
      reads this
    {
      forall m :: m in calls ==> Valid(m.values)
    }

    constructor(initialData: Option<InitialData>)
      ensures this.initialData == initialData && calls == []
      ensures CallsValid()
    {
      this.initialData := initialData;
      calls := [];
    }

    /** `onSubmit(values)`, reached only through `form.handleSubmit`, whose
        resolver has checked `values` against the schema. */
    method OnSubmit(values: CredentialValues) returns (m: Mutation)
      requires CallsValid() && Valid(values)
      modifies this
      ensures CallsValid()
      ensures calls == old(calls) + [m]
      // Update exactly in edit mode, with the initial credential's id; create otherwise.
      ensures m.Update? <==> IsEdit(initialData)
      ensures m.Update? ==> m == Update(initialData.value.id.value, values)
      ensures m.Create? ==> m == Create(values)
    {
      var isEdit := initialData.Some? && Truthy(initialData.value.id);
      if isEdit && initialData.Some? && Truthy(initialData.value.id) {
        m := Update(initialData.value.id.value, values);
      } else {
        m := Create(values);
      }
      calls := calls + [m];
    }

    /** `form.handleSubmit(onSubmit)`: values the schema refuses call no
        mutation; accepted values go to `onSubmit`. */
    method HandleSubmit(values: CredentialValues) returns (m: Option<Mutation>)
      requires CallsValid()
      modifies this
      ensures CallsValid()
      ensures m.Some? <==> Valid(values)
      ensures m.None? ==> calls == old(calls)
      ensures m.Some? ==> calls == old(calls) + [m.value] && m.value.values == values
      ensures m.Some? ==> (m.value.Update? <==> IsEdit(initialData))
    {
      if Valid(values) {
        var sent := OnSubmit(values);
        m := Some(sent);
      } else {
        m := None;
      }
    }
  }

  /** A form opened on a credential without an id shows that credential, yet
      its title and its submit both take the create path. */
  lemma OpenedWithoutIdCreates(d: InitialData)
    requires !Truthy(d.id)
    ensures Defaults(Some(d)) == CredentialValues(d.name, d.credentialType, d.value)
    ensures Title(Some(d)) == "Create Credential"
    ensures !IsEdit(Some(d))
  {
  }
}
