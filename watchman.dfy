/**
  The watchman's add-visitor form and its offline queue.

  Offline, a submitted form is appended to a queue kept in local storage.
  When the browser comes back online the queue is replayed, entry by
  entry in order, as pending visitors added by the watchman; the queue is
  removed only once every write has gone through. A failed write keeps
  the whole queue, although the entries before it were already written,
  so a later replay writes those again.
 */
module Watchman {
  import opened Wrappers
  import opened Text
  import opened UserTypes
  import opened Validators
  import opened Backend

  /** The form's `formData`. */
  datatype VisitorForm = VisitorForm(
    name: string,
    phoneNumber: string,
    purpose: string,
    vehicleNumber: string,
    residentName: string,
    residentId: string)

  const EmptyForm := VisitorForm("", "", "", "", "", "")

  /** A queued visitor: the form, the time of the submit, `status: "pending"` and the image preview. */
  datatype OfflineEntry = OfflineEntry(form: VisitorForm, timestamp: Stamp, status: Status, imagePreview: Option<string>)

  /**
    The record a replay writes for an entry: the entry's fields, pending,
    added by `uid`. The queued image preview is not an image URL, and the
    replay sets no society.
   */
  function Replayed(e: OfflineEntry, uid: string): (v: Visitor)
    ensures v.status == Pending && v.addedBy == uid && v.timestamp == e.timestamp
    ensures v.name == e.form.name && v.residentId == e.form.residentId && v.residentName == e.form.residentName
    ensures v.imageUrl.None? && v.societyId.None?
  {
    Visitor("", e.form.name, e.form.phoneNumber, e.form.purpose, Some(e.form.vehicleNumber), None,
            e.timestamp, e.form.residentId, e.form.residentName, Pending, uid, None)
  }

  /** The records the replay of `q` writes, the `i`-th under the identifier `ids[i]`. */
  function ReplayAll(q: seq<OfflineEntry>, uid: string, ids: seq<string>): (r: seq<Visitor>)
    requires |ids| == |q|
    ensures |r| == |q|
    ensures forall i :: 0 <= i < |q| ==> r[i] == Replayed(q[i], uid).(id := ids[i])
  {
    if q == [] then []
    else ReplayAll(q[..|q| - 1], uid, ids[..|q| - 1]) + [Replayed(q[|q| - 1], uid).(id := ids[|q| - 1])]
  }

  /**
    The effect of a replay: the documents after it and the queue after it.
    `failAt` is the position of the first write that fails, if any.
   */
  datatype SyncResult = SyncResult(docs: seq<Visitor>, queue: seq<OfflineEntry>)

  function SyncEffect(docs: seq<Visitor>, q: seq<OfflineEntry>, uid: string, ids: seq<string>, failAt: Option<nat>): (r: SyncResult)
    requires |ids| == |q|
    ensures r.queue == [] || r.queue == q
  {
    if q == [] then SyncResult(docs, q)
    else if failAt.Some? && failAt.value < |q| then
      SyncResult(docs + ReplayAll(q[..failAt.value], uid, ids[..failAt.value]), q)
    else SyncResult(docs + ReplayAll(q, uid, ids), [])
  }

  /**
    The queue is cleared exactly when every write went through; then every
    entry was written once, in queue order, pending and added by `uid`.
   */
  lemma SyncClearsOnlyOnSuccess(docs: seq<Visitor>, q: seq<OfflineEntry>, uid: string, ids: seq<string>, failAt: Option<nat>)
    requires |ids| == |q| && q != []
    ensures SyncEffect(docs, q, uid, ids, failAt).queue == [] <==> failAt.None? || failAt.value >= |q|
    ensures SyncEffect(docs, q, uid, ids, failAt).queue == [] ==>
      var d := SyncEffect(docs, q, uid, ids, failAt).docs;
      && |d| == |docs| + |q|
      && d[..|docs|] == docs
      && forall i :: 0 <= i < |q| ==>
           d[|docs| + i] == Replayed(q[i], uid).(id := ids[i]) && d[|docs| + i].status == Pending && d[|docs| + i].addedBy == uid
  {
  }

  /**
    A failed replay keeps the queue and leaves the entries before the failing
    one written; replaying again then writes those a second time.
   */
  lemma {:induction false} RetryWritesTwice(docs: seq<Visitor>, q: seq<OfflineEntry>, uid: string, ids: seq<string>, ids2: seq<string>, k: nat)
    requires |ids| == |q| && |ids2| == |q| && k < |q|
    ensures
      var first := SyncEffect(docs, q, uid, ids, Some(k));
      var second := SyncEffect(first.docs, first.queue, uid, ids2, None);
      && first.queue == q
      && second.queue == []
      && |second.docs| == |docs| + k + |q|
      && forall i :: 0 <= i < k ==>
           second.docs[|docs| + i].(id := "") == Replayed(q[i], uid) && second.docs[|docs| + k + i].(id := "") == Replayed(q[i], uid)
  {
    var first := SyncEffect(docs, q, uid, ids, Some(k));
    var a := ReplayAll(q[..k], uid, ids[..k]);
    var b := ReplayAll(q, uid, ids2);
    assert first.docs == docs + a;
    var d := docs + a + b;
    forall i | 0 <= i < k
      ensures d[|docs| + i].(id := "") == Replayed(q[i], uid) && d[|docs| + k + i].(id := "") == Replayed(q[i], uid)
    {
      assert d[|docs| + i] == a[i] && a[i] == Replayed(q[..k][i], uid).(id := ids[..k][i]);
      assert d[|docs| + k + i] == b[i];
    }
  }

  /**
    The loop of a replay: adds the entries of `q` in order, stopping at the
    first write that fails. `ok` says whether every write went through.
   */
  method ReplayQueue(store: Store, q: seq<OfflineEntry>, uid: string, ids: seq<string>, failAt: Option<nat>)
    returns (ok: bool)
    requires |ids| == |q|
    modifies store
    ensures ok <==> failAt.None? || failAt.value >= |q|
    ensures ok ==> store.docs == old(store.docs) + ReplayAll(q, uid, ids)
    ensures !ok ==> store.docs == old(store.docs) + ReplayAll(q[..failAt.value], uid, ids[..failAt.value])
  {
    var i := 0;
    while i < |q|
      invariant 0 <= i <= |q|
      invariant failAt.None? || failAt.value >= i
      invariant store.docs == old(store.docs) + ReplayAll(q[..i], uid, ids[..i])
    {
      var written := store.Add(Replayed(q[i], uid), ids[i], failAt != Some(i));
      if !written {
        return false;
      }
      assert q[..i + 1][..i] == q[..i] && ids[..i + 1][..i] == ids[..i];
      i := i + 1;
    }
    assert q[..i] == q && ids[..i] == ids;
    ok := true;
  }

  /** The watchman dashboard's form state, its offline queue and the signed-in watchman. */
  class Dashboard {
    const uid: string
    const societyId: Option<string>
    var form: VisitorForm
    var showAddForm: bool
    var loading: bool
    var hasImage: bool
    var imagePreview: Option<string>
    var queue: seq<OfflineEntry>

    constructor (uid: string, societyId: Option<string>, queue: seq<OfflineEntry>)
      ensures this.uid == uid && this.societyId == societyId && this.queue == queue
      ensures form == EmptyForm && !showAddForm && !loading && !hasImage && imagePreview.None?
    {
      this.uid := uid;
      this.societyId := societyId;
      this.queue := queue;
      form := EmptyForm;
      showAddForm := false;
      loading := false;
      hasImage := false;
      imagePreview := None;
    }

    /** Empties the form, closes it and drops the chosen image (the Cancel button and every successful submit). */
    method Reset()
      modifies this
      ensures form == EmptyForm && !showAddForm && !hasImage && imagePreview.None?
      ensures loading == old(loading) && queue == old(queue)
    {
      showAddForm := false;
      form := EmptyForm;
      hasImage := false;
      imagePreview := None;
    }

    /** Choosing a photo: the file and its data-URL preview. */
    method SelectImage(preview: string)
      modifies this
      ensures hasImage && imagePreview == Some(preview)
      ensures form == old(form) && showAddForm == old(showAddForm) && loading == old(loading) && queue == old(queue)
    {
      hasImage := true;
      imagePreview := Some(preview);
    }

    /** The phone field: only 0 to 10 digits are taken; anything else keeps the old value. */
    method EditPhone(input: string)
      modifies this
      ensures form == old(form).(phoneNumber := OnPhoneChange(old(form).phoneNumber, input))
      ensures PhoneAccepts(old(form).phoneNumber) ==> PhoneAccepts(form.phoneNumber)
      ensures showAddForm == old(showAddForm) && loading == old(loading) && hasImage == old(hasImage)
      ensures imagePreview == old(imagePreview) && queue == old(queue)
    {
      form := form.(phoneNumber := OnPhoneChange(form.phoneNumber, input));
    }

    /** The plate field: the upper-cased input is taken only if it is a prefix of the plate template. */
    method EditPlate(input: string)
      modifies this
      ensures form == old(form).(vehicleNumber := OnPlateChange(old(form).vehicleNumber, input))
      ensures showAddForm == old(showAddForm) && loading == old(loading) && hasImage == old(hasImage)
      ensures imagePreview == old(imagePreview) && queue == old(queue)
    {
      form := form.(vehicleNumber := OnPlateChange(form.vehicleNumber, input));
    }

    /** An offline submit: one pending entry appended at the end of the queue, then the form is reset. */
    method SaveOffline(now: Stamp)
      modifies this
      ensures queue == old(queue) + [OfflineEntry(old(form), now, Pending, old(imagePreview))]
      ensures form == EmptyForm && !showAddForm && !hasImage && imagePreview.None?
      ensures loading == old(loading)
    {
      queue := queue + [OfflineEntry(form, now, Pending, imagePreview)];
      Reset();
    }

    /**
      `syncOfflineVisitors`: writes the queued entries in order until one
      fails (`failAt`), and removes the queue only if none failed.
     */
    method Sync(store: Store, ids: seq<string>, failAt: Option<nat>) returns (synced: bool)
      requires |ids| == |queue|
      modifies this, store
      ensures SyncResult(store.docs, queue) == SyncEffect(old(store.docs), old(queue), uid, ids, failAt)
      ensures synced <==> old(queue) != [] && queue == []
      ensures form == old(form) && showAddForm == old(showAddForm) && loading == old(loading)
      ensures hasImage == old(hasImage) && imagePreview == old(imagePreview)
    {
      synced := false;
      if queue == [] {
        return;
      }
      var ok := ReplayQueue(store, queue, uid, ids, failAt);
      if ok {
        queue := [];
        synced := true;
      }
    }

    /**
      An online submit. Without database services nothing happens. Otherwise
      the chosen image is uploaded first (`uploaded` is the URL, `None` when
      the upload fails), the visitor is added as pending, by this watchman,
      in this society, and the resident lookup for the notification email
      runs (`lookupOk`); only when all of these go through is the form reset.
      `loading` is cleared at the end either way.
     */
    method SubmitOnline(store: Store, services: bool, now: Stamp, uploaded: Option<string>,
                        id: string, addOk: bool, lookupOk: bool) returns (added: bool)
      modifies this, store
      ensures !services ==> !added && store.docs == old(store.docs) && form == old(form)
                            && showAddForm == old(showAddForm) && loading == old(loading)
      ensures services ==> !loading
      ensures added <==> services && (!old(hasImage) || uploaded.Some?) && addOk
      ensures added ==> store.docs == old(store.docs) + [Visitor(id, old(form).name, old(form).phoneNumber, old(form).purpose,
                          Some(old(form).vehicleNumber), Some(if old(hasImage) then uploaded.value else ""), now,
                          old(form).residentId, old(form).residentName, Pending, uid, societyId)]
      ensures !added ==> store.docs == old(store.docs)
      ensures added && lookupOk ==> form == EmptyForm && !showAddForm && !hasImage && imagePreview.None?
      ensures !(added && lookupOk) ==> form == old(form) && showAddForm == old(showAddForm)
                                       && hasImage == old(hasImage) && imagePreview == old(imagePreview)
      ensures queue == old(queue)
    {
      added := false;
      if !services {
        return;
      }
      loading := true;
      var imageUrl := "";
      if hasImage {
        if uploaded.None? {
          loading := false;
          return;
        }
        imageUrl := uploaded.value;
      }
      var v := Visitor("", form.name, form.phoneNumber, form.purpose, Some(form.vehicleNumber), Some(imageUrl), now,
                       form.residentId, form.residentName, Pending, uid, societyId);
      added := store.Add(v, id, addOk);
      if added && lookupOk {
        Reset();
      }
      loading := false;
    }

    /** `handleSubmit`: offline the entry is queued, online it is written. */
    method Submit(store: Store, online: bool, services: bool, now: Stamp, uploaded: Option<string>,
                  id: string, addOk: bool, lookupOk: bool) returns (added: bool)
      modifies this, store
      ensures !online ==> !added && store.docs == old(store.docs)
                          && queue == old(queue) + [OfflineEntry(old(form), now, Pending, old(imagePreview))]
                          && form == EmptyForm && !showAddForm
      ensures online ==> queue == old(queue)
      ensures online ==> (added <==> services && (!old(hasImage) || uploaded.Some?) && addOk)
      ensures online && added ==> store.docs == old(store.docs) + [Visitor(id, old(form).name, old(form).phoneNumber, old(form).purpose,
                                    Some(old(form).vehicleNumber), Some(if old(hasImage) then uploaded.value else ""), now,
                                    old(form).residentId, old(form).residentName, Pending, uid, societyId)]
      ensures online && !added ==> store.docs == old(store.docs)
      ensures online && added && lookupOk ==> form == EmptyForm && !showAddForm && !hasImage && imagePreview.None?
      ensures online && !(added && lookupOk) ==>
                form == old(form) && showAddForm == old(showAddForm) && hasImage == old(hasImage) && imagePreview == old(imagePreview)
      ensures added ==> online && |store.docs| == |old(store.docs)| + 1 && store.docs[..|old(store.docs)|] == old(store.docs)
                        && store.docs[|old(store.docs)|].status == Pending
    {
      if !online {
        SaveOffline(now);
        added := false;
      } else {
        added := SubmitOnline(store, services, now, uploaded, id, addOk, lookupOk);
      }
    }
  }

  /** What a status change from the watchman dashboard reports. */
  datatype ChangeOutcome = ServicesMissing | NotFound | Updated | Failed

  /**
    `handleVisitorStatusChange`: a missing visitor is reported and nothing
    is written; otherwise only its status changes (its resident and society
    are written back as read).
   */
  method ChangeStatus(store: Store, services: bool, id: string, st: Status, readOk: bool, writeOk: bool)
    returns (outcome: ChangeOutcome)
    modifies store
    ensures outcome == Updated ==> store.docs == VisitorList.SetStatus(old(store.docs), id, st)
    ensures outcome != Updated ==> store.docs == old(store.docs)
    ensures outcome == ServicesMissing <==> !services
    ensures outcome == NotFound <==> services && readOk && !HasId(old(store.docs), id)
    ensures outcome == Updated <==> services && readOk && HasId(old(store.docs), id) && writeOk
  {
    if !services {
      return ServicesMissing;
    }
    if !readOk {
      return Failed;
    }
    var found := Lookup(store.docs, id);
    if found.None? {
      return NotFound;
    }
    var written := store.UpdateStatus(id, st, writeOk);
    outcome := if written then Updated else Failed;
  }
}
