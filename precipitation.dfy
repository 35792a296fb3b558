/** The emoji table of the chatbot: one glyph per weather word. The keys are the
    lower-case words a user's condition is looked up by. */
module Precipitation {
  import opened Text

  /** Every weather word the chatbot knows, with its glyph. */
  const ConditionEmojis: map<string, string> := map[
      "clear" := "☀️",
      "rain" := "🌧️",
      "thunderstorm" := "⛈️",
      "drizzle" := "🌦️",
      "snow" := "❄️",
      "mist" := "🌫️",
      "smoke" := "💨",
      "haze" := "🌁",
      "dust" := "🌪️",
      "fog" := "🌫️",
      "sand" := "🏜️",
      "ash" := "🌋",
      "squall" := "🌬️",
      "tornado" := "🌪️",
      "clouds" := "☁️",
      "sun" := "☀️",
      "cloud" := "☁️",
      "chilly" := "🥶",
      "freezy" := "❄️",
      "ice" := "❄️",
      "cold" := "❄️",
      "hot" := "🔥",
      "warm" := "🌤️",
      "temperature" := "🌡️",
      "calm" := "🌬️",
      "breeze" := "🌫️",
      "windy" := "💨",
      "strong_wind" := "🌪️",
      "stormy" := "🌬️🌪️"
    ]

  /** The temperature words and their glyphs. */
  const TemperatureEmojis: map<string, string> := map[
      "chilly" := "🥶",
      "cold" := "❄️",
      "hot" := "🔥",
      "warm" := "🌤️",
      "temperature" := "🌡️"
    ]

  /** The wind words and their glyphs. */
  const WindSpeedEmojis: map<string, string> := map[
      "calm" := "🌬️",
      "breeze" := "🌫️",
      "windy" := "💨",
      "strong_wind" := "🌪️",
      "stormy" := "🌬️🌪️"
    ]

  /** Every key is already lower case, so a word lower-cased before the lookup can
      match any of them. */
  lemma ConditionKeysLowerCase()
    ensures forall k | k in ConditionEmojis :: Lower(k) == k
  {
  }

  /** The temperature table is a part of the main table: same words, same glyphs. */
  lemma TemperatureIsSubMap()
    ensures forall k | k in TemperatureEmojis :: k in ConditionEmojis && ConditionEmojis[k] == TemperatureEmojis[k]
  {
  }

  /** The wind table is a part of the main table: same words, same glyphs. */
  lemma WindSpeedIsSubMap()
    ensures forall k | k in WindSpeedEmojis :: k in ConditionEmojis && ConditionEmojis[k] == WindSpeedEmojis[k]
  {
  }

  /** Different words share a glyph, so the glyph does not tell which word matched. */
  lemma NotInjective()
    ensures ConditionEmojis["clear"] == ConditionEmojis["sun"]
    ensures ConditionEmojis["clouds"] == ConditionEmojis["cloud"]
    ensures ConditionEmojis["mist"] == ConditionEmojis["fog"]
  {
  }
}
