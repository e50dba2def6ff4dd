/**
 * The state of the dashboard page component and its handlers: loading the
 * user's subscriptions and their statistics, and the "new", "edit" and
 * "delete" modals. Each asynchronous handler is modelled by the state it
 * leaves once its awaited calls have answered; the answers of the hosted
 * backend are parameters.
 */
module DashboardPage {
  import opened Common
  import opened Aggregate
  import opened SubscriptionForm

  /** What `supabase.auth.getUser()` answered. */
  datatype Auth = SignedIn(userId: string) | SignedOut | AuthFailed(thrown: Thrown)

  /** What the `select` on the user's subscriptions answered: rows (possibly null) or an error. */
  datatype Rows = Rows(data: Option<seq<Subscription>>) | RowsFailed(thrown: Thrown)

  /** The one message shown when loading fails for any reason. */
  const LoadErrorMessage: string := "Erro ao carregar assinaturas. Por favor, tente novamente."
  /** The message of the `Error` thrown when `getUser` returns no user. */
  const NotAuthenticatedMessage: string := "Usuário não autenticado"
  /** What each handler shows when it catches something that is not an `Error`. */
  const CreateFallback: string := "Erro ao criar assinatura"
  const EditFallback: string := "Erro ao editar assinatura"
  const DeleteFallback: string := "Erro ao excluir assinatura"

  /** The monthly cost of every subscription, in list order. */
  function Costs(subs: seq<Subscription>): (cs: seq<real>)
    ensures |cs| == |subs|
    ensures forall i :: 0 <= i < |subs| ==> cs[i] == subs[i].monthlyCost
  {
    seq(|subs|, i requires 0 <= i < |subs| => subs[i].monthlyCost)
  }

  /**
   * The statistics after a load that returned `data`: recomputed from a
   * non-empty list, otherwise the previous ones are kept unchanged.
   */
  function StatsAfterLoad(previous: Stats, data: Option<seq<Subscription>>): (s: Stats)
    ensures data.Some? && |data.value| > 0 ==>
      s.total == Sum(Costs(data.value)) && s.count == |data.value| && s.average * s.count as real == s.total
    ensures data.None? || data.value == [] ==> s == previous
    ensures Consistent(previous) ==> Consistent(s)
  {
    if data.Some? && |data.value| > 0 then Of(Costs(data.value)) else previous
  }

  /**
   * A load whose list came back empty keeps the statistics of the previous
   * load in the component state (the summary itself is hidden while the list
   * is empty).
   */
  lemma StatsKeptWhenListEmpties(previous: Stats, s: Subscription)
    requires previous == StatsAfterLoad(Zero, Some([s]))
    ensures StatsAfterLoad(previous, Some([])).count == 1
    ensures StatsAfterLoad(previous, Some([])).total == s.monthlyCost
  {
    var costs := Costs([s]);
    assert costs[..0] == [];
    assert Sum(costs) == s.monthlyCost;
  }

  /** The error text a failed load leaves, or none when both calls succeed. */
  function LoadError(auth: Auth, rows: Rows): (e: Option<string>)
    ensures e.None? <==> auth.SignedIn? && rows.Rows?
    ensures e.Some? ==> e.value == LoadErrorMessage
  {
    if auth.SignedIn? && rows.Rows? then None else Some(LoadErrorMessage)
  }

  /** The error text a failed new-subscription submit leaves, or none when the row is inserted. */
  function NewSubmitError(f: Form, parse: string -> Number, auth: Auth, insert: Option<Thrown>): (e: Option<string>)
    ensures Validate(f, parse).Err? ==> e == Some(Message(Validate(f, parse).error))
    ensures Validate(f, parse).Ok? && auth.AuthFailed? ==> e == Some(Shown(auth.thrown, CreateFallback))
    ensures Validate(f, parse).Ok? && auth.SignedOut? ==> e == Some(NotAuthenticatedMessage)
    ensures Validate(f, parse).Ok? && auth.SignedIn? ==>
      e == (if insert.Some? then Some(Shown(insert.value, CreateFallback)) else None)
  {
    match Validate(f, parse)
    case Err(reason) => Some(Message(reason))
    case Ok(_) =>
      match auth
      case AuthFailed(t) => Some(Shown(t, CreateFallback))
      case SignedOut => Some(NotAuthenticatedMessage)
      case SignedIn(_) => if insert.Some? then Some(Shown(insert.value, CreateFallback)) else None
  }

  /** The error text a failed edit submit leaves, or none when the update succeeds. */
  function EditSubmitError(f: Form, parse: string -> Number, update: Option<Thrown>): (e: Option<string>)
    ensures Validate(f, parse).Err? ==> e == Some(Message(Validate(f, parse).error))
    ensures Validate(f, parse).Ok? ==>
      e == (if update.Some? then Some(Shown(update.value, EditFallback)) else None)
  {
    match Validate(f, parse)
    case Err(reason) => Some(Message(reason))
    case Ok(_) => if update.Some? then Some(Shown(update.value, EditFallback)) else None
  }

  /**
   * On the same form, the new and the edit handler refuse the same inputs
   * with the same message; they differ only in what the backend answered.
   */
  lemma SubmitsAgreeOnValidation(f: Form, parse: string -> Number, auth: Auth, insert: Option<Thrown>, update: Option<Thrown>)
    ensures Validate(f, parse).Err? ==>
      NewSubmitError(f, parse, auth, insert) == EditSubmitError(f, parse, update)
        == Some(Message(Validate(f, parse).error))
    ensures NewSubmitError(f, parse, SignedIn(""), None).None? <==> Validate(f, parse).Ok?
    ensures EditSubmitError(f, parse, None).None? <==> Validate(f, parse).Ok?
  {
  }

  /** For a non-empty list, the statistics are exactly those of its costs. */
  ghost predicate Summarizes(stats: Stats, subs: seq<Subscription>)
  {
    subs != [] ==> stats == Of(Costs(subs))
  }

  class Dashboard {
    var subscriptions: seq<Subscription>
    var loading: bool
    var error: Option<string>
    var stats: Stats

    var editModalOpen: bool
    var editingSubscription: Option<Subscription>
    var editForm: Form
    var editLoading: bool
    var editError: Option<string>

    var deleteModalOpen: bool
    var deletingSubscription: Option<Subscription>
    var deleteLoading: bool
    var deleteError: Option<string>

    var newModalOpen: bool
    var newForm: Form
    var newLoading: bool
    var newError: Option<string>

    /**
     * The page's invariant: the edit and the delete modal are each open exactly
     * when they have a subscription selected; the statistics are zero or agree
     * with themselves, and for a non-empty list they are those of the list.
     */
    ghost predicate Valid()
      reads this`editModalOpen, this`editingSubscription, this`deleteModalOpen, this`deletingSubscription
      reads this`stats, this`subscriptions
    {
      && (editModalOpen <==> editingSubscription.Some?)
      && (deleteModalOpen <==> deletingSubscription.Some?)
      && Consistent(stats)
      && Summarizes(stats, subscriptions)
    }

    /**
     * The summary section: rendered only when no load is pending (the page
     * shows just the loading indicator then) and the list is non-empty, and
     * then showing the total, count and average of exactly the listed
     * subscriptions.
     */
    function Summary(): (shown: Option<Stats>)
      requires Valid()
      reads this
      ensures shown.Some? <==> !loading && subscriptions != []
      ensures shown.Some? ==>
        && shown.value.total == Sum(Costs(subscriptions))
        && shown.value.count == |subscriptions|
        && shown.value.average * shown.value.count as real == shown.value.total
    {
      if !loading && subscriptions != [] then Some(stats) else None
    }

    /** The initial state of the component, before the first load answers. */
    constructor ()
      ensures Valid()
      ensures subscriptions == [] && loading && error.None? && stats == Zero
      ensures !editModalOpen && editingSubscription.None? && editForm == EmptyForm
      ensures !editLoading && editError.None?
      ensures !deleteModalOpen && deletingSubscription.None? && !deleteLoading && deleteError.None?
      ensures !newModalOpen && newForm == EmptyForm && !newLoading && newError.None?
    {
      subscriptions, loading, error, stats := [], true, None, Zero;
      editModalOpen, editingSubscription, editForm, editLoading, editError := false, None, EmptyForm, false, None;
      deleteModalOpen, deletingSubscription, deleteLoading, deleteError := false, None, false, None;
      newModalOpen, newForm, newLoading, newError := false, EmptyForm, false, None;
    }

    /** The synchronous start of `loadSubscriptions`: loading, no error. */
    method BeginLoad()
      requires Valid()
      modifies this`loading, this`error
      ensures Valid()
      ensures loading && error.None?
    {
      loading := true;
      error := None;
    }

    /**
     * The end of `loadSubscriptions` once `getUser` and `select` answered:
     * on success the list is the rows (none for a null result) and the
     * statistics follow `StatsAfterLoad`; on any failure the list and the
     * statistics stay and the fixed load error is shown.
     */
    method FinishLoad(auth: Auth, rows: Rows)
      requires Valid()
      modifies this`subscriptions, this`stats, this`error, this`loading
      ensures Valid()
      ensures !loading
      ensures auth.SignedIn? && rows.Rows? ==>
        && subscriptions == (if rows.data.Some? then rows.data.value else [])
        && stats == StatsAfterLoad(old(stats), rows.data)
        && error == old(error)
      ensures !(auth.SignedIn? && rows.Rows?) ==>
        subscriptions == old(subscriptions) && stats == old(stats) && error == LoadError(auth, rows)
    {
      if auth.SignedIn? && rows.Rows? {
        subscriptions := if rows.data.Some? then rows.data.value else [];
        stats := StatsAfterLoad(stats, rows.data);
      } else {
        error := Some(LoadErrorMessage);
      }
      loading := false;
    }

    /** `openNewSubscriptionModal`: a fresh form, no error, the modal open. */
    method OpenNewSubscriptionModal()
      requires Valid()
      modifies this`newForm, this`newError, this`newModalOpen
      ensures Valid()
      ensures newForm == EmptyForm && newError.None? && newModalOpen
    {
      newForm := EmptyForm;
      newError := None;
      newModalOpen := true;
    }

    /** `closeNewSubscriptionModal`: the modal closed, no error; the form is kept. */
    method CloseNewSubscriptionModal()
      requires Valid()
      modifies this`newModalOpen, this`newError
      ensures Valid()
      ensures !newModalOpen && newError.None?
    {
      newModalOpen := false;
      newError := None;
    }

    /** An `onChange` of the new form: one input takes the typed text. */
    method EditNewField(field: Field, text: string)
      requires Valid()
      modifies this`newForm
      ensures Valid()
      ensures FieldOf(newForm, field) == text
      ensures forall other :: other != field ==> FieldOf(newForm, other) == FieldOf(old(newForm), other)
    {
      newForm := WithField(newForm, field, text);
    }

    /**
     * `handleNewSubmit` once its calls answered: the form is validated, then
     * the user fetched, then the row inserted. `sent` is the row handed to
     * `insert`. On success the modal closes and a reload starts; otherwise the
     * message of what was thrown is shown.
     */
    method HandleNewSubmit(parse: string -> Number, auth: Auth, insert: Option<Thrown>) returns (sent: Option<NewRow>)
      requires Valid()
      modifies this`newLoading, this`newError, this`newModalOpen, this`loading, this`error
      ensures Valid()
      ensures sent.Some? <==> Validate(old(newForm), parse).Ok? && auth.SignedIn?
      ensures sent.Some? ==> sent.value == InsertRow(newForm, Validate(newForm, parse).value, auth.userId)
      ensures newError == NewSubmitError(newForm, parse, auth, insert)
      ensures !newLoading
      ensures newError.None? ==> !newModalOpen && loading && error.None?
      ensures newError.Some? ==> newModalOpen == old(newModalOpen) && loading == old(loading) && error == old(error)
    {
      newLoading := true;
      newError := None;
      sent := None;
      var checked := Validate(newForm, parse);
      if checked.Err? {
        newError := Some(Message(checked.error));
      } else {
        match auth
        case AuthFailed(t) =>
          newError := Some(Shown(t, CreateFallback));
        case SignedOut =>
          newError := Some(NotAuthenticatedMessage);
        case SignedIn(userId) =>
          sent := Some(InsertRow(newForm, checked.value, userId));
          if insert.Some? {
            newError := Some(Shown(insert.value, CreateFallback));
          } else {
            CloseNewSubscriptionModal();
            BeginLoad();
          }
      }
      newLoading := false;
    }

    /** `openEditModal`: select the subscription and fill the form from it; `show` stands for `String`. */
    method OpenEditModal(s: Subscription, show: real -> string)
      requires Valid()
      modifies this`editingSubscription, this`editForm, this`editError, this`editModalOpen
      ensures Valid()
      ensures editingSubscription == Some(s) && editForm == FormOf(s, show)
      ensures editError.None? && editModalOpen
    {
      editingSubscription := Some(s);
      editForm := FormOf(s, show);
      editError := None;
      editModalOpen := true;
    }

    /** `closeEditModal`: closed, nothing selected, no error. */
    method CloseEditModal()
      requires Valid()
      modifies this`editModalOpen, this`editingSubscription, this`editError
      ensures Valid()
      ensures !editModalOpen && editingSubscription.None? && editError.None?
    {
      editModalOpen := false;
      editingSubscription := None;
      editError := None;
    }

    /** An `onChange` of the edit form: one input takes the typed text. */
    method EditEditField(field: Field, text: string)
      requires Valid()
      modifies this`editForm
      ensures Valid()
      ensures FieldOf(editForm, field) == text
      ensures forall other :: other != field ==> FieldOf(editForm, other) == FieldOf(old(editForm), other)
    {
      editForm := WithField(editForm, field, text);
    }

    /**
     * `handleEditSubmit` once the update answered: nothing at all happens
     * without a selected subscription. Otherwise the form is validated and the
     * columns sent for the selected id; `now` is the clock's ISO timestamp.
     */
    method HandleEditSubmit(parse: string -> Number, now: string, update: Option<Thrown>)
      returns (sent: Option<(string, UpdateRow)>)
      requires Valid()
      modifies this`editLoading, this`editError, this`editModalOpen, this`editingSubscription, this`loading, this`error
      ensures Valid()
      ensures old(editingSubscription).None? ==> sent.None? && unchanged(this)
      ensures old(editingSubscription).Some? ==>
        && (sent.Some? <==> Validate(editForm, parse).Ok?)
        && (sent.Some? ==> sent.value == (old(editingSubscription).value.id, UpdateFields(editForm, Validate(editForm, parse).value, now)))
        && editError == EditSubmitError(editForm, parse, update)
        && !editLoading
        && (editError.None? ==> !editModalOpen && editingSubscription.None? && loading && error.None?)
        && (editError.Some? ==> editModalOpen == old(editModalOpen) && editingSubscription == old(editingSubscription)
                                && loading == old(loading) && error == old(error))
    {
      sent := None;
      if editingSubscription.None? {
        return;
      }
      var id := editingSubscription.value.id;
      editLoading := true;
      editError := None;
      var checked := Validate(editForm, parse);
      if checked.Err? {
        editError := Some(Message(checked.error));
      } else {
        sent := Some((id, UpdateFields(editForm, checked.value, now)));
        if update.Some? {
          editError := Some(Shown(update.value, EditFallback));
        } else {
          CloseEditModal();
          BeginLoad();
        }
      }
      editLoading := false;
    }

    /** `openDeleteModal`: select the subscription, no error, the modal open. */
    method OpenDeleteModal(s: Subscription)
      requires Valid()
      modifies this`deletingSubscription, this`deleteError, this`deleteModalOpen
      ensures Valid()
      ensures deletingSubscription == Some(s) && deleteError.None? && deleteModalOpen
    {
      deletingSubscription := Some(s);
      deleteError := None;
      deleteModalOpen := true;
    }

    /** `closeDeleteModal`: closed, nothing selected, no error. */
    method CloseDeleteModal()
      requires Valid()
      modifies this`deleteModalOpen, this`deletingSubscription, this`deleteError
      ensures Valid()
      ensures !deleteModalOpen && deletingSubscription.None? && deleteError.None?
    {
      deleteModalOpen := false;
      deletingSubscription := None;
      deleteError := None;
    }

    /**
     * `handleDelete` once the delete answered: nothing at all happens without
     * a selected subscription; otherwise `sent` is the id handed to `delete`.
     */
    method HandleDelete(delete: Option<Thrown>) returns (sent: Option<string>)
      requires Valid()
      modifies this`deleteLoading, this`deleteError, this`deleteModalOpen, this`deletingSubscription, this`loading, this`error
      ensures Valid()
      ensures old(deletingSubscription).None? ==> sent.None? && unchanged(this)
      ensures old(deletingSubscription).Some? ==>
        && sent == Some(old(deletingSubscription).value.id)
        && !deleteLoading
        && (delete.None? ==> !deleteModalOpen && deletingSubscription.None? && deleteError.None? && loading && error.None?)
        && (delete.Some? ==> deleteError == Some(Shown(delete.value, DeleteFallback))
                             && deleteModalOpen == old(deleteModalOpen) && deletingSubscription == old(deletingSubscription)
                             && loading == old(loading) && error == old(error))
    {
      sent := None;
      if deletingSubscription.None? {
        return;
      }
      sent := Some(deletingSubscription.value.id);
      deleteLoading := true;
      deleteError := None;
      if delete.Some? {
        deleteError := Some(Shown(delete.value, DeleteFallback));
      } else {
        CloseDeleteModal();
        BeginLoad();
      }
      deleteLoading := false;
    }
  }
}
