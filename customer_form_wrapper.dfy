/** client/src/components/customers/CustomerFormWrapper.jsx: picks the add
    or the update mutation for a submitted form and reacts to its outcome.
    Toasts and console output are not modelled. */
module CustomerFormWrapper {
  import opened Optional
  import opened Http
  import opened CustomerModel
  import opened ClientValues
  import opened CustomerApi
  import opened UseCustomers
  import opened CustomerForm

  /** The mutation `handleSubmit` fires: an update of the record being
      edited, or an add when nothing is being edited. */
  function Dispatch(editing: Option<Customer>, form: Form): (m: Mutation)
    ensures m.UpdateMutation? <==> editing.Some?
    ensures m.AddMutation? <==> editing.None?
    ensures editing.Some? ==> m.id == editing.value.id
  {
    match editing
    case Some(c) => UpdateMutation(c.id, Entries(form))
    case None => AddMutation(Entries(form))
  }

  /** What goes over the wire for a submitted form: all six text fields, empty
      ones included, and the image only when one was chosen. */
  lemma SubmittedFields(form: Form)
    ensures Kept(Entries(form)) == Entries(form)[..6] + (if form.image.Some? then [("image", Blob(form.image.value))] else [])
  {
    var e := Entries(form);
    assert e == e[..6] + [e[6]];
    KeptConcat(e[..6], [e[6]]);
    KeptAllDefined(e[..6]);
  }

  /** An edit PUTs to the edited record's URL; anything else POSTs to the
      collection. */
  lemma SubmissionTarget(base: string, editing: Option<Customer>, form: Form)
    ensures var reqs := MutationRequests(base, Dispatch(editing, form));
            |reqs| == 1 &&
            reqs[0].form == Kept(Entries(form)) &&
            (editing.Some? ==> reqs[0].verb == Put && reqs[0].url == ItemUrl(base, editing.value.id)) &&
            (editing.None? ==> reqs[0].verb == Post && reqs[0].url == base)
  {
  }

  /** `handleSubmit`: turns the form's loading flag on, then fires the
      mutation. */
  method HandleSubmit(state: FormState, editing: Option<Customer>, customer: Form) returns (m: Mutation)
    modifies state
    ensures m == Dispatch(editing, customer)
    ensures state.loading
    ensures state.form == old(state.form) && state.errors == old(state.errors)
    ensures state.imageError == old(state.imageError)
  {
    state.SetLoading(true);
    m := Dispatch(editing, customer);
  }

  /** The mutation's outcome. On success the form is reset, an update also
      clears the page's edited record, and the page is told (which closes the
      modal); on failure only the loading flag drops. */
  method HandleSettled(state: FormState, m: Mutation, succeeded: bool) returns (clearEditing: bool, notify: bool)
    requires state.Valid()
    modifies state
    ensures state.Valid()
    ensures !state.loading
    ensures succeeded ==> state.form == Blank && state.errors == map[] && state.imageError == ""
    ensures !succeeded ==> state.form == old(state.form) && state.errors == old(state.errors) &&
                           state.imageError == old(state.imageError)
    ensures clearEditing <==> succeeded && m.UpdateMutation?
    ensures notify <==> succeeded
  {
    clearEditing, notify := false, false;
    if succeeded {
      state.ResetForm();
      clearEditing := m.UpdateMutation?;
      state.SetLoading(false);
      notify := true;
    } else {
      state.SetLoading(false);
    }
  }
}
