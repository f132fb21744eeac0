/**
 * The shape of a weather response, restricted to the fields the screen reads.
 * Floating-point values (temperatures, wind speed) are carried as the strings
 * that `Double.toString` produces for them; epoch times are seconds.
 */
module Models {
  /** One entry of the response's `weather` array. */
  datatype Condition = Condition(main: string, description: string, icon: string)

  /** The `main` block: temperatures (pre-rendered) and the humidity percentage. */
  datatype MainBlock = MainBlock(temp: string, tempMin: string, tempMax: string, humidity: int)

  /** `Wind`: only `speed` is shown. */
  datatype Wind = Wind(speed: string)

  /** `Sys`: the country code and the sunrise and sunset instants in epoch seconds. */
  datatype Sys = Sys(country: string, sunrise: int, sunset: int)

  /** The whole response, as stored in the preference slot and read back. */
  datatype WeatherRecord = WeatherRecord(weather: seq<Condition>, main: MainBlock, wind: Wind, sys: Sys, name: string)
}
