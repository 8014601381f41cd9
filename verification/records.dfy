/** The records the dashboard shows and the on-chain key/value store holds. */
module Records {

  datatype Option<+T> = None | Some(value: T)

  /** A preference as the dashboard holds it: the stored record plus the id it was found under. */
  datatype Preference = Preference(
    id: string,
    encryptedData: string,
    timestamp: int,
    owner: string,
    exhibitId: string,
    lightingIntensity: int,
    colorTemperature: int,
    visionCondition: string)

  /** The object written under `preference_{id}`; the id itself is not part of it. */
  datatype StoredRecord = StoredRecord(
    data: string,
    timestamp: int,
    owner: string,
    exhibitId: string,
    lightingIntensity: int,
    colorTemperature: int,
    visionCondition: string)

  /** The creation form's fields (`newPreference`). */
  datatype Draft = Draft(
    exhibitId: string,
    lightingIntensity: int,
    colorTemperature: int,
    visionCondition: string)

  /** The form's initial and reset value. */
  const DefaultDraft := Draft("", 50, 4000, "normal")

  /** The preference that loading builds from the record stored for `id`. */
  function FromStored(id: string, r: StoredRecord): Preference
  {
    Preference(id, r.data, r.timestamp, r.owner, r.exhibitId,
               r.lightingIntensity, r.colorTemperature, r.visionCondition)
  }
}
