/**
 The weather feature of a checkpoint: the fixed table from the weather
 provider's free-text description to a coarse category, and the reading of
 the provider's reply (service.py:22-43). The HTTP request itself is not
 part of this model: its reply is an input.
 */
module Weather {
  import opened Basics

  datatype Category = Sunny | Cloudy | Rainy | Unknown

  /** The service's `weather_map`. */
  const WEATHER_MAP: map<string, Category> := map[
    "clear sky" := Sunny,
    "few clouds" := Sunny,
    "scattered clouds" := Cloudy,
    "broken clouds" := Cloudy,
    "shower rain" := Rainy,
    "rain" := Rainy,
    "thunderstorm" := Rainy,
    "snow" := Rainy,
    "mist" := Rainy
  ]

  const SUNNY_KEYS: set<string> := {"clear sky", "few clouds"}
  const CLOUDY_KEYS: set<string> := {"scattered clouds", "broken clouds"}
  const RAINY_KEYS: set<string> := {"shower rain", "rain", "thunderstorm", "snow", "mist"}

  /** `weather_map.get(description, "unknown")`. */
  function Lookup(description: string): Category
  {
    if description in WEATHER_MAP then WEATHER_MAP[description] else Unknown
  }

  /** The table, read category by category: each category has exactly the
      listed descriptions, and every other description is unknown. */
  lemma LookupByCategory(description: string)
    ensures Lookup(description) == Sunny <==> description in SUNNY_KEYS
    ensures Lookup(description) == Cloudy <==> description in CLOUDY_KEYS
    ensures Lookup(description) == Rainy <==> description in RAINY_KEYS
    ensures Lookup(description) == Unknown <==>
              description !in SUNNY_KEYS + CLOUDY_KEYS + RAINY_KEYS
  {
  }

  /** The table has nine keys and never yields `Unknown` itself. */
  lemma TableShape()
    ensures WEATHER_MAP.Keys == SUNNY_KEYS + CLOUDY_KEYS + RAINY_KEYS
    ensures |WEATHER_MAP| == 9
    ensures Unknown !in WEATHER_MAP.Values
  {
  }

  /** What the provider answered: an HTTP status and, on success, the first
      weather entry's description. */
  datatype Reply = Reply(status: int, description: string)

  const HTTP_OK: int := 200

  /** `get_weather`'s `description` field: the category of the description on
      status 200, and `None` on any other status. */
  function GetWeather(reply: Reply): (w: Option<Category>)
    ensures w.Some? <==> reply.status == HTTP_OK
    ensures w.Some? ==> w.value == Lookup(reply.description)
  {
    if reply.status == HTTP_OK then Some(Lookup(reply.description)) else None
  }
}
