/** The companion personas (types.ts). */
module Types {
  /** The selectable animals; the enumeration's string values serve only as
      keys and button titles in the control panel, which is not modelled. */
  datatype AnimalType = Cat | Dog | Fox | Rabbit | Panda | Dragon

  /**
   * One persona record. The glyph and the two styling tokens only
   * matter for rendering; `prompt` is the persona text sent to the
   * remark generator. The table of concrete personas is not modelled:
   * any record may be passed in.
   */
  datatype AnimalConfig = AnimalConfig(
    kind: AnimalType,
    emoji: string,
    color: string,
    borderColor: string,
    prompt: string)
}
