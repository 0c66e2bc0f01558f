/**
 * The camera wrapper: it owns at most one OpenCV capture handle, releases
 * the old one before opening another, and releases every handle it created
 * exactly once.
 */
module CameraDevice {
  import opened Wrappers
  import opened Frames

  /**
   * A `cv2.VideoCapture`. Whether the device really opened is known when
   * it is created (`isOpened()`), and is not modelled beyond that.
   */
  class VideoCapture {
    const index: int
    const isOpen: bool
    /** How many times `release()` was called on this handle. */
    ghost var releases: nat

    constructor (index: int, isOpen: bool)
      ensures this.index == index && this.isOpen == isOpen && releases == 0
    {
      this.index := index;
      this.isOpen := isOpen;
      releases := 0;
    }

    method Release()
      modifies this
      ensures releases == old(releases) + 1
    {
      releases := releases + 1;
    }
  }

  /** What `Camera.read` gives back: a frame, or the `RuntimeError` it raises. */
  datatype ReadResult = Frame(image: Image) | NotOpened | GrabFailed

  class Camera {
    /** `self.cam`: the capture held, if any. */
    var cam: Option<VideoCapture>
    /** Every capture this camera has created. */
    ghost var handles: set<VideoCapture>

    /** The held capture is unreleased; every other capture created so far was released exactly once. */
    ghost predicate Valid()
      reads this, handles
    {
      && (cam.Some? ==> cam.value in handles && cam.value.releases == 0)
      && forall h :: h in handles ==> h.releases == 1 || (cam == Some(h) && h.releases == 0)
    }

    /** `Camera(index)`: with an index, a capture is created at once, whether or not it opened. */
    constructor (index: Option<int>, opens: bool)
      ensures Valid()
      ensures index.None? ==> cam == None && handles == {}
      ensures index.Some? ==> cam.Some? && fresh(cam.value) && cam.value.index == index.value && cam.value.isOpen == opens
    {
      if index.Some? {
        var c := new VideoCapture(index.value, opens);
        cam := Some(c);
        handles := {c};
      } else {
        cam := None;
        handles := {};
      }
    }

    /** `close()`: the held capture, if any, is released once and dropped; a second close releases nothing. */
    method Close()
      requires Valid()
      modifies this, handles
      ensures Valid()
      ensures cam == None && handles == old(handles)
      ensures old(cam).Some? ==> old(cam).value.releases == 1
      ensures forall h :: h in handles && Some(h) != old(cam) ==> h.releases == old(h.releases)
    {
      if cam.Some? {
        cam.value.Release();
        cam := None;
      }
    }

    /**
     * `open(index)`: the old capture is released first; then a new one is
     * created, kept if it opened and released at once if not.
     */
    method Open(index: int, opens: bool) returns (ok: bool)
      requires Valid()
      modifies this, handles
      ensures Valid()
      ensures ok == opens
      ensures old(cam).Some? ==> old(cam).value.releases == 1
      ensures ok ==> cam.Some? && fresh(cam.value) && cam.value.index == index && cam.value.isOpen
      ensures !ok ==> cam == None
      ensures exists c :: fresh(c) && handles == old(handles) + {c}
    {
      Close();
      var c := new VideoCapture(index, opens);
      handles := handles + {c};
      cam := Some(c);
      if !c.isOpen {
        c.Release();
        cam := None;
        return false;
      }
      return true;
    }

    /** `is_opened()`. */
    predicate IsOpened()
      reads this
    {
      cam.Some? && cam.value.isOpen
    }

    /** `read()`, given what `cam.read()` grabs: a frame, or `None` when it returns `ret == False`. */
    method Read(grab: Option<Image>) returns (r: ReadResult)
      ensures r.Frame? <==> IsOpened() && grab.Some?
      ensures r.Frame? ==> r.image == grab.value
      ensures !IsOpened() ==> r == NotOpened
      ensures IsOpened() && grab.None? ==> r == GrabFailed
    {
      if !IsOpened() {
        return NotOpened;
      }
      if grab.None? {
        return GrabFailed;
      }
      return Frame(grab.value);
    }

    /** `__exit__` at the end of a `with` block, and `__del__`: both close, so no handle outlives the object. */
    method Exit()
      requires Valid()
      modifies this, handles
      ensures Valid() && cam == None
      ensures forall h :: h in handles ==> h.releases == 1
    {
      Close();
    }
  }
}
