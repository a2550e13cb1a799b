/** The photo screen of the administration panel: a form (name, description,
    category, chosen file) and the list of photos, which is appended to and filtered
    and which is written back to browser storage after every change. The clock, the
    encoded image the file reader produces and the stored list are parameters; the
    stored list is kept decoded, as the photos it holds. */
module Photos {
  import opened Wrappers
  import opened Strings
  import opened Seqs

  datatype Photo = Photo(id: string, name: string, description: string, category: string, image: string)

  /** A file chosen in the file input. */
  datatype PhotoFile = PhotoFile(fileName: string)

  datatype PhotoForm = PhotoForm(name: string, description: string, category: string, file: Option<PhotoFile>)

  const EmptyPhotoForm := PhotoForm("", "", "", None)

  datatype PhotosState = PhotosState(photos: seq<Photo>, saved: Option<seq<Photo>>, newPhoto: PhotoForm)

  /** Browser storage holds exactly the current list. */
  predicate Persisted(s: PhotosState) {
    s.saved == Some(s.photos)
  }

  /** The state after mounting: the stored list when there is one, the list handed in
      otherwise, and that list written back. */
  function Mounted(initial: seq<Photo>, saved: Option<seq<Photo>>): PhotosState {
    var photos := saved.GetOr(initial);
    PhotosState(photos, Some(photos), EmptyPhotoForm)
  }

  /** A file, a name and a category are present; the description may be empty. */
  predicate ReadyToAdd(f: PhotoForm) {
    f.file.Some? && f.name != "" && f.category != ""
  }

  /** The photo made from the form once the file is read: its id is the time in
      milliseconds and its image the encoded file. */
  function NewItem(f: PhotoForm, now: nat, base64: string): Photo {
    Photo(NatToString(now), f.name, f.description, f.category, base64)
  }

  /** `handleAddPhoto` up to the reader's completion; the flag says whether the
      "fill in every field" alert was raised. */
  function AfterAddPhoto(s: PhotosState, now: nat, base64: string): (PhotosState, bool) {
    if !ReadyToAdd(s.newPhoto) then (s, true)
    else
      var photos := s.photos + [NewItem(s.newPhoto, now, base64)];
      (PhotosState(photos, Some(photos), EmptyPhotoForm), false)
  }

  /** The filter test of a deletion: the photo does not carry `id`. */
  function OtherId(id: string): Photo -> bool {
    (p: Photo) => p.id != id
  }

  function WithoutPhoto(photos: seq<Photo>, id: string): seq<Photo> {
    Filter(photos, OtherId(id))
  }

  function AfterDelete(s: PhotosState, id: string): PhotosState {
    var photos := WithoutPhoto(s.photos, id);
    s.(photos := photos, saved := Some(photos))
  }

  // What the handlers promise

  /** Adding is refused, with an alert and no change, exactly when the file, the name
      or the category is missing; otherwise one photo carrying the form's fields, the
      time in milliseconds as its id and the encoded file as its image is appended
      after the unchanged earlier ones, and the form is emptied. */
  lemma AddPhotoOutcomes(s: PhotosState, now: nat, base64: string)
    ensures var (t, alerted) := AfterAddPhoto(s, now, base64);
            (alerted <==> s.newPhoto.file.None? || s.newPhoto.name == "" || s.newPhoto.category == "") &&
            (alerted ==> t == s) &&
            (!alerted ==>
               |t.photos| == |s.photos| + 1 && t.photos[..|s.photos|] == s.photos &&
               var p := t.photos[|s.photos|];
               p.id == NatToString(now) && p.name == s.newPhoto.name && p.description == s.newPhoto.description &&
               p.category == s.newPhoto.category && p.image == base64 &&
               t.newPhoto == EmptyPhotoForm)
  {
  }

  /** An empty description does not stop a photo from being added. */
  lemma DescriptionOptional(s: PhotosState, now: nat, base64: string)
    requires s.newPhoto.file.Some? && s.newPhoto.name != "" && s.newPhoto.category != ""
    requires s.newPhoto.description == ""
    ensures !AfterAddPhoto(s, now, base64).1
    ensures AfterAddPhoto(s, now, base64).0.photos[|s.photos|].description == ""
  {
  }

  /** Deleting keeps exactly the photos with another id, each as often as before, in
      their order; nothing with that id remains, so deleting again changes nothing. */
  lemma DeleteKeepsOthers(photos: seq<Photo>, id: string)
    ensures forall p :: p in WithoutPhoto(photos, id) <==> p in photos && p.id != id
    ensures forall p :: multiset(WithoutPhoto(photos, id))[p] ==
                          if p.id != id then multiset(photos)[p] else 0
    ensures IsSubsequence(WithoutPhoto(photos, id), photos)
    ensures WithoutPhoto(WithoutPhoto(photos, id), id) == WithoutPhoto(photos, id)
  {
    forall p ensures p in WithoutPhoto(photos, id) <==> p in photos && p.id != id {
      FilterMembership(photos, OtherId(id), p);
    }
    forall p ensures multiset(WithoutPhoto(photos, id))[p] ==
                     if p.id != id then multiset(photos)[p] else 0 {
      FilterCount(photos, OtherId(id), p);
    }
    FilterIsSubsequence(photos, OtherId(id));
    FilterIdempotent(photos, OtherId(id));
  }

  /** Ids come from the clock, so two photos added within the same millisecond share
      one, and deleting either deletes both. */
  lemma SameMillisecondShareId(s: PhotosState, now: nat, a: string, b: string)
    requires ReadyToAdd(s.newPhoto)
    ensures var t := AfterAddPhoto(s, now, a).0;
            var u := AfterAddPhoto(t.(newPhoto := s.newPhoto), now, b).0;
            |u.photos| == |s.photos| + 2 &&
            u.photos[|s.photos|].id == u.photos[|s.photos| + 1].id &&
            WithoutPhoto(u.photos, NatToString(now)) == WithoutPhoto(s.photos, NatToString(now))
  {
    var t := AfterAddPhoto(s, now, a).0;
    var u := AfterAddPhoto(t.(newPhoto := s.newPhoto), now, b).0;
    var id := NatToString(now);
    assert u.photos == s.photos + [NewItem(s.newPhoto, now, a), NewItem(s.newPhoto, now, b)];
    FilterConcat(s.photos, [NewItem(s.newPhoto, now, a), NewItem(s.newPhoto, now, b)], OtherId(id));
    assert Filter([NewItem(s.newPhoto, now, a), NewItem(s.newPhoto, now, b)], OtherId(id)) == [];
  }

  // Every change writes the list back

  datatype Event =
    | TypeName(name: string)
    | TypeDescription(description: string)
    | TypeCategory(category: string)
    | ChooseFile(file: Option<PhotoFile>)
    | AddPhoto(now: nat, base64: string)
    | Delete(id: string)

  function Step(s: PhotosState, e: Event): PhotosState {
    match e
    case TypeName(v) => s.(newPhoto := s.newPhoto.(name := v))
    case TypeDescription(v) => s.(newPhoto := s.newPhoto.(description := v))
    case TypeCategory(v) => s.(newPhoto := s.newPhoto.(category := v))
    case ChooseFile(f) => s.(newPhoto := s.newPhoto.(file := f))
    case AddPhoto(now, base64) => AfterAddPhoto(s, now, base64).0
    case Delete(id) => AfterDelete(s, id)
  }

  function Run(s: PhotosState, events: seq<Event>): PhotosState
    decreases |events|
  {
    if events == [] then s else Run(Step(s, events[0]), events[1..])
  }

  lemma StepKeepsPersisted(s: PhotosState, e: Event)
    requires Persisted(s)
    ensures Persisted(Step(s, e))
  {
  }

  /** After mounting, and after any sequence of handlers, browser storage holds the
      current list. */
  lemma {:induction false} AlwaysPersisted(initial: seq<Photo>, saved: Option<seq<Photo>>, events: seq<Event>)
    ensures Persisted(Run(Mounted(initial, saved), events))
  {
    RunKeepsPersisted(Mounted(initial, saved), events);
  }

  lemma {:induction false} RunKeepsPersisted(s: PhotosState, events: seq<Event>)
    requires Persisted(s)
    ensures Persisted(Run(s, events))
    decreases |events|
  {
    if events != [] {
      StepKeepsPersisted(s, events[0]);
      RunKeepsPersisted(Step(s, events[0]), events[1..]);
    }
  }

  /** The photo screen; `photos` is the list the parent owns and `saved` what
      browser storage holds under "photos". */
  class AdminPhotos {
    var photos: seq<Photo>
    var saved: Option<seq<Photo>>
    var newPhoto: PhotoForm

    function State(): PhotosState
      reads this
    {
      PhotosState(photos, saved, newPhoto)
    }

    /** Mounting: the stored list, when there is one, replaces the list handed in,
        and the list is then written back. */
    constructor (initial: seq<Photo>, stored: Option<seq<Photo>>)
      ensures State() == Mounted(initial, stored) && Persisted(State())
    {
      photos := initial;
      newPhoto := PhotoForm("", "", "", None);
      if stored.Some? {
        photos := stored.value;
      }
      saved := Some(photos);
    }

    method TypeName(name: string)
      modifies this
      ensures State() == old(State()).(newPhoto := old(newPhoto).(name := name))
    {
      newPhoto := newPhoto.(name := name);
    }

    method TypeDescription(description: string)
      modifies this
      ensures State() == old(State()).(newPhoto := old(newPhoto).(description := description))
    {
      newPhoto := newPhoto.(description := description);
    }

    method TypeCategory(category: string)
      modifies this
      ensures State() == old(State()).(newPhoto := old(newPhoto).(category := category))
    {
      newPhoto := newPhoto.(category := category);
    }

    method HandleFileChange(file: Option<PhotoFile>)
      modifies this
      ensures State() == old(State()).(newPhoto := old(newPhoto).(file := file))
    {
      newPhoto := newPhoto.(file := file);
    }

    /** `handleAddPhoto`, the reader completing with the encoded file `base64` at time
        `now`; `alerted` says whether the "fill in every field" alert was raised. */
    method HandleAddPhoto(now: nat, base64: string) returns (alerted: bool)
      modifies this
      ensures (State(), alerted) == AfterAddPhoto(old(State()), now, base64)
      ensures Persisted(old(State())) ==> Persisted(State())
    {
      if newPhoto.file.None? || newPhoto.name == "" || newPhoto.category == "" {
        return true;
      }
      var newItem := Photo(NatToString(now), newPhoto.name, newPhoto.description, newPhoto.category, base64);
      photos := photos + [newItem];
      newPhoto := PhotoForm("", "", "", None);
      saved := Some(photos);
      alerted := false;
    }

    method HandleDelete(id: string)
      modifies this
      ensures State() == AfterDelete(old(State()), id) && Persisted(State())
    {
      photos := Filter(photos, OtherId(id));
      saved := Some(photos);
    }
  }
}
