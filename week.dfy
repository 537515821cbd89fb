/**
 * The two day-name dictionaries of the availability handlers: the read
 * handler turns the stored English key into the Spanish label the app
 * shows, the save handler turns the label back into the key.
 */
module Week {
  import opened Common

  /** The stored `day_of_week` keys, Monday first. */
  const EnglishKeys: seq<string> :=
    ["monday", "tuesday", "wednesday", "thursday", "friday", "saturday", "sunday"]

  /** The labels the app sends and receives, in the same order. */
  const SpanishLabels: seq<string> :=
    ["Lunes", "Martes", "Miércoles", "Jueves", "Viernes", "Sábado", "Domingo"]

  /** `dayMapping[key]` of the read handler; `None` is JavaScript's `undefined`. */
  function ToSpanish(key: string): (r: Option<string>)
    ensures r.Some? <==> key in EnglishKeys
    ensures r.Some? ==> r.value in SpanishLabels
  {
    if key == "monday" then Some("Lunes")
    else if key == "tuesday" then Some("Martes")
    else if key == "wednesday" then Some("Miércoles")
    else if key == "thursday" then Some("Jueves")
    else if key == "friday" then Some("Viernes")
    else if key == "saturday" then Some("Sábado")
    else if key == "sunday" then Some("Domingo")
    else None
  }

  /** `dayMapping[label]` of the save handler. */
  function ToEnglish(spanish: string): (r: Option<string>)
    ensures r.Some? <==> spanish in SpanishLabels
    ensures r.Some? ==> r.value in EnglishKeys
  {
    if spanish == "Lunes" then Some("monday")
    else if spanish == "Martes" then Some("tuesday")
    else if spanish == "Miércoles" then Some("wednesday")
    else if spanish == "Jueves" then Some("thursday")
    else if spanish == "Viernes" then Some("friday")
    else if spanish == "Sábado" then Some("saturday")
    else if spanish == "Domingo" then Some("sunday")
    else None
  }

  /** The two dictionaries are mutual inverses on the seven days. */
  lemma DayMapsInverse(key: string, spanish: string)
    ensures ToSpanish(key) == Some(spanish) <==> ToEnglish(spanish) == Some(key)
  {
  }

  /** Both dictionaries pair the i-th key with the i-th label. */
  lemma DayMapsAligned(i: int)
    requires 0 <= i < 7
    ensures ToSpanish(EnglishKeys[i]) == Some(SpanishLabels[i])
    ensures ToEnglish(SpanishLabels[i]) == Some(EnglishKeys[i])
  {
  }
}
