/**
 * The `platformIcon` pipe: the SVG path drawn for a platform type. Matching is on the upper-cased
 * type; a missing or empty type reads as `UNKNOWN`.
 */
module PlatformIcon {
  import opened Wrappers
  import opened Strings

  /** The four drawings the pipe chooses from. */
  datatype Icon = Computer | Handheld | Joystick | Console

  /** The SVG path of each drawing. */
  function IconPath(icon: Icon): string {
    match icon
    case Computer => "M20 18c1.1 0 1.99-.9 1.99-2L22 6c0-1.1-.9-2-2-2H4c-1.1 0-2 .9-2 2v10c0 1.1.9 2 2 2H0v2h24v-2h-4zM4 6h16v10H4V6z"
    case Handheld => "M22 6H2v12h20V6zm-2 10H4V8h16v8zM7 9h2v2H7zm0 4h2v2H7zm4-4h2v2h-2zm0 4h2v2h-2zm4-4h2v6h-2z"
    case Joystick => "M21 9H3V7h18v2zm-9-6c-1.1 0-2 .9-2 2v2h4V5c0-1.1-.9-2-2-2zm9 8H3c-1.1 0-2 .9-2 2v8c0 1.1.9 2 2 2h18c1.1 0 2-.9 2-2v-8c0-1.1-.9-2-2-2zm-9 8c-1.1 0-2-.9-2-2s.9-2 2-2 2 .9 2 2-.9 2-2 2z"
    case Console => "M21 6H3c-1.1 0-2 .9-2 2v8c0 1.1.9 2 2 2h18c1.1 0 2-.9 2-2V8c0-1.1-.9-2-2-2zm-10 7H8v3H6v-3H3v-2h3V8h2v3h3v2zm4.5 2c-.83 0-1.5-.67-1.5-1.5s.67-1.5 1.5-1.5 1.5.67 1.5 1.5-.67 1.5-1.5 1.5zm4 0c-.83 0-1.5-.67-1.5-1.5s.67-1.5 1.5-1.5 1.5.67 1.5 1.5-.67 1.5-1.5 1.5z"
  }

  /** `platformType ? platformType.toUpperCase() : 'UNKNOWN'`. */
  function NormalizedType(platformType: Option<string>): (t: string)
    ensures !Truthy(platformType) ==> t == "UNKNOWN"
    ensures Truthy(platformType) ==> t == ToUpper(platformType.value)
  {
    if Truthy(platformType) then ToUpper(platformType.value) else "UNKNOWN"
  }

  /** The `switch` of `transform`, on the normalised type. */
  function IconFor(t: string): (icon: Icon)
    ensures icon == Computer <==> t in {"COMPUTER", "OPERATING_SYSTEM", "PC"}
    ensures icon == Handheld <==> t == "PORTABLE_CONSOLE"
    ensures icon == Joystick <==> t == "ARCADE"
    ensures icon == Console <==> t !in {"COMPUTER", "OPERATING_SYSTEM", "PC", "PORTABLE_CONSOLE", "ARCADE"}
  {
    match t
    case "COMPUTER" => Computer
    case "OPERATING_SYSTEM" => Computer
    case "PC" => Computer
    case "PORTABLE_CONSOLE" => Handheld
    case "ARCADE" => Joystick
    case _ => Console
  }

  /** `transform`. */
  function Transform(platformType: Option<string>): string {
    IconPath(IconFor(NormalizedType(platformType)))
  }

  /** A missing or empty type gets the console icon. */
  lemma MissingTypeIsConsole(platformType: Option<string>)
    requires !Truthy(platformType)
    ensures Transform(platformType) == IconPath(Console)
  {
    assert IconFor("UNKNOWN") == Console;
  }

  /** The case of the type does not matter. */
  lemma NormalizedTypeIgnoresCase(t: string)
    ensures NormalizedType(Some(ToUpper(t))) == NormalizedType(Some(t))
  {
    ToUpperIdempotent(t);
  }
}
