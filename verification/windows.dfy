/** One enumerated window, as the per-window callback sees it once the platform's
    dictionary has been read, and the JSON object the callback builds from it. */
module Windows {

  /** The metadata of one on-screen window. `title` is the composed
      "Application - Window" text, taken as given; position and size are already
      whole numbers. */
  datatype WindowRecord = WindowRecord(
    windowId: int,
    appName: string,
    windowName: string,
    title: string,
    x: int,
    y: int,
    width: int,
    height: int)

  datatype JsonSize = JsonSize(height: int, width: int)

  datatype JsonPosition = JsonPosition(x: int, y: int)

  /** The object built for every window: four top-level fields plus the nested
      `size` and `position` objects set through dotted paths. Its serialised
      text is not modelled. */
  datatype JsonObject = JsonObject(
    appName: string,
    windowName: string,
    title: string,
    windowId: int,
    size: JsonSize,
    position: JsonPosition)

  /** Reads a window back out of its JSON object: the inverse of `JsonOf`. */
  function WindowOf(obj: JsonObject): WindowRecord {
    WindowRecord(obj.windowId, obj.appName, obj.windowName, obj.title,
                 obj.position.x, obj.position.y, obj.size.width, obj.size.height)
  }

  /** The JSON object for a window; every field of the window survives in it. */
  function JsonOf(w: WindowRecord): (obj: JsonObject)
    ensures WindowOf(obj) == w
  {
    JsonObject(w.appName, w.windowName, w.title, w.windowId,
               JsonSize(w.height, w.width), JsonPosition(w.x, w.y))
  }

}
