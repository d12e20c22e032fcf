/** Stereo PCM. */
module Audio {
  import opened Words

  datatype Frame = Frame(left: i16, right: i16)
}
