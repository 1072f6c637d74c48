/** The playable element (a `<video>` or `<audio>`) reduced to what the core reads
    and writes: its position in milliseconds and whether it is paused. */
module Media {

  class MediaElement {
    var currentTime: int
    var paused: bool

    constructor (time: int, isPaused: bool)
      ensures currentTime == time && paused == isPaused
    {
      currentTime := time;
      paused := isPaused;
    }

    /** `play()`: the element starts; the position is kept. */
    method Play()
      modifies this
      ensures !paused && currentTime == old(currentTime)
    {
      paused := false;
    }

    /** `pause()`: the element stops; the position is kept. */
    method Pause()
      modifies this
      ensures paused && currentTime == old(currentTime)
    {
      paused := true;
    }

    /** Assigning `currentTime`: the play state is kept. */
    method Seek(time: int)
      modifies this
      ensures currentTime == time && paused == old(paused)
    {
      currentTime := time;
    }

    /** `load()`: the element is reset to the start of its source and paused. */
    method Load()
      modifies this
      ensures currentTime == 0 && paused
    {
      currentTime := 0;
      paused := true;
    }
  }
}
