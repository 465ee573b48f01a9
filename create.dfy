/**
 * The create-task screen: the optional photo and location it collects,
 * the title check that guards the save, and the payload it hands to the
 * store.
 */
module CreateTodo {
  import opened Wrappers
  import opened Text
  import opened TodoTypes

  /** What the camera returns: cancelled, or the captured assets (each with a local file URI). */
  datatype CameraResult = Canceled | Captured(assets: seq<string>)

  /** A position reading: coordinates and the time of the fix. */
  datatype Coords = Coords(latitude: Number, longitude: Number)
  datatype Position = Position(coords: Coords, timestamp: Number)

  /** `x ?? null`: a value the screen holds as present-or-null, never missing, in the payload. */
  function OrNull<T>(x: Option<T>): (f: Field<T>)
    ensures !f.Undefined?
    ensures f.Null? <==> x.None?
    ensures f.Value? ==> x == Some(f.value)
  {
    match x
    case None => Null
    case Some(v) => Value(v)
  }

  /** `!title.trim()`: the title is rejected exactly when it is empty or white space only. */
  predicate TitleMissing(title: string)
    ensures TitleMissing(title) <==> AllWhitespace(title)
  {
    TrimEmptyIff(title);
    Trim(title) == []
  }

  /**
   * The request `handleSaveTask` sends to `createTask`, or `None` when the
   * title check stops it first. The title is sent as typed, not trimmed.
   */
  function SaveRequest(title: string, photoUri: Option<string>, location: Option<LocationData>): (r: Option<NewTaskData>)
    ensures r.None? <==> AllWhitespace(title)
    ensures r.Some? ==> r.value.title == title
    ensures r.Some? ==> !r.value.photoUri.Undefined? && (r.value.photoUri.Value? <==> photoUri.Some?)
    ensures r.Some? && photoUri.Some? ==> r.value.photoUri.value == photoUri.value
    ensures r.Some? ==> !r.value.location.Undefined? && (r.value.location.Value? <==> location.Some?)
    ensures r.Some? && location.Some? ==> r.value.location.value == location.value
  {
    if TitleMissing(title) then None
    else Some(NewTaskData(title, OrNull(photoUri), OrNull(location)))
  }

  /** A title with something other than white space in it is sent, padding and all. */
  lemma UntrimmedTitleSent()
    ensures SaveRequest("  Buy milk ", None, None) == Some(NewTaskData("  Buy milk ", Null, Null))
  {
    assert !IsWhitespace("  Buy milk "[2]);
  }

  /** The create screen's state. */
  class CreateTodoScreen {
    var title: string
    var photoUri: Option<string>
    var locationData: Option<LocationData>
    var isLoading: bool

    constructor ()
      ensures title == "" && photoUri == None && locationData == None && !isLoading
    {
      title := "";
      photoUri := None;
      locationData := None;
      isLoading := false;
    }

    /** The title field's `onChangeText`. */
    method ChangeTitle(text: string)
      modifies this`title
      ensures title == text
    {
      title := text;
    }

    /**
     * `handlePickImage`: a cancelled capture keeps the current photo; a
     * successful one (which always carries an asset) takes the first asset's URI.
     */
    method HandlePickImage(result: CameraResult)
      requires result.Captured? ==> |result.assets| > 0
      modifies this`photoUri
      ensures photoUri == if result.Canceled? then old(photoUri) else Some(result.assets[0])
    {
      if !result.Canceled? {
        photoUri := Some(result.assets[0]);
      }
    }

    /**
     * `handleGetLocation`, reachable only while the button is enabled
     * (not loading). `reading` is the fix, or `None` when it failed; a
     * failure keeps the previous location.
     */
    method HandleGetLocation(reading: Option<Position>)
      requires !isLoading
      modifies this`locationData, this`isLoading
      ensures !isLoading
      ensures reading.None? ==> locationData == old(locationData)
      ensures reading.Some? ==> locationData == Some(LocationData(
        reading.value.coords.latitude, reading.value.coords.longitude, reading.value.timestamp))
    {
      isLoading := true;
      if reading.Some? {
        var p := reading.value;
        locationData := Some(LocationData(p.coords.latitude, p.coords.longitude, p.timestamp));
      }
      isLoading := false;
    }

    /**
     * `handleSaveTask`, reachable only while the button is enabled. Returns
     * the payload passed to `createTask`, or `None` when the title check
     * rejected the save before any store call.
     */
    method HandleSaveTask() returns (request: Option<NewTaskData>)
      requires !isLoading
      modifies this`isLoading
      ensures request == SaveRequest(title, photoUri, locationData)
      ensures !isLoading
    {
      if TitleMissing(title) {
        return None;
      }
      isLoading := true;
      request := SaveRequest(title, photoUri, locationData);
      isLoading := false;
    }
  }

  /** A blank title never reaches the store; a photo taken before saving does, and a cancelled retake keeps it. */
  method CreateSession(blank: string, title: string, uri: string)
    requires AllWhitespace(blank) && !AllWhitespace(title)
  {
    var screen := new CreateTodoScreen();
    screen.ChangeTitle(blank);
    var request := screen.HandleSaveTask();
    assert request.None?;
    screen.HandlePickImage(Captured([uri]));
    screen.HandlePickImage(Canceled);
    screen.ChangeTitle(title);
    request := screen.HandleSaveTask();
    assert request == Some(NewTaskData(title, Value(uri), Null));
  }
}
