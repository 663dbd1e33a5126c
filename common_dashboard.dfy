/**
  The shared dashboard: its dispatch by role and its add-visitor form.
 */
module CommonDashboard {
  import opened Wrappers
  import opened UserTypes
  import opened Backend
  import opened Watchman

  datatype View = ResidentView | WatchmanView | CommitteeView | UnknownRole(role: Option<string>)

  /** `renderDashboard`: the three roles get their dashboards; anything else is "Unknown role". */
  function RenderDashboard(role: Option<string>): (v: View)
    ensures role.Some? && ParseRole(role.value).Some? ==>
      v == match ParseRole(role.value).value case Resident => ResidentView case Watchman => WatchmanView case Committee => CommitteeView
    ensures v.UnknownRole? <==> role.None? || ParseRole(role.value).None?
    ensures v.UnknownRole? ==> v.role == role
  {
    if role == Some("resident") then ResidentView
    else if role == Some("watchman") then WatchmanView
    else if role == Some("committee") then CommitteeView
    else UnknownRole(role)
  }

  class Dashboard {
    const uid: string
    var form: VisitorForm
    var showAddForm: bool
    var loading: bool
    var hasImage: bool
    var imagePreview: Option<string>

    constructor (uid: string)
      ensures this.uid == uid && form == EmptyForm && !showAddForm && !loading && !hasImage && imagePreview.None?
    {
      this.uid := uid;
      form := EmptyForm;
      showAddForm := false;
      loading := false;
      hasImage := false;
      imagePreview := None;
    }

    /**
      `handleSubmit`: without services an error and nothing else. Otherwise
      the image, if one was chosen, is stored first (`uploaded`, `None` when
      that fails); the visitor is added as pending by this user, with ""
      as the image URL when there is no image, and no society; only a
      successful add resets the form, the image and the add-form flag.
     */
    method Submit(store: Store, services: bool, now: Stamp, uploaded: Option<string>, id: string, addOk: bool)
      returns (added: bool)
      modifies this, store
      ensures !services ==> !added && loading == old(loading)
      ensures services ==> !loading
      ensures added <==> services && (!old(hasImage) || uploaded.Some?) && addOk
      ensures added ==> store.docs == old(store.docs) + [Visitor(id, old(form).name, old(form).phoneNumber, old(form).purpose,
                          Some(old(form).vehicleNumber), Some(if old(hasImage) then uploaded.value else ""), now,
                          old(form).residentId, old(form).residentName, Pending, uid, None)]
      ensures added ==> form == EmptyForm && !showAddForm && !hasImage && imagePreview.None?
      ensures !added ==> store.docs == old(store.docs) && form == old(form) && showAddForm == old(showAddForm)
                         && hasImage == old(hasImage) && imagePreview == old(imagePreview)
    {
      added := false;
      if !services {
        return;
      }
      loading := true;
      var imageUrl := "";
      if hasImage {
        if uploaded.None? {
          loading := false;
          return;
        }
        imageUrl := uploaded.value;
      }
      var v := Visitor("", form.name, form.phoneNumber, form.purpose, Some(form.vehicleNumber), Some(imageUrl), now,
                       form.residentId, form.residentName, Pending, uid, None);
      added := store.Add(v, id, addOk);
      if added {
        form := EmptyForm;
        hasImage := false;
        imagePreview := None;
        showAddForm := false;
      }
      loading := false;
    }
  }
}
