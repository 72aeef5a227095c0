/** Values shared by the YouTube adapter and the subtitle store. */
module Cues {

  datatype Option<+T> = None | Some(value: T)

  /** One timed caption entry; times are integer milliseconds. */
  datatype Cue = Cue(start: int, end: int, text: string)
}
