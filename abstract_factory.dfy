/** The Abstract Factory script (abstract_factory.py): two GUI factories,
    each producing a button and a checkbox of its own platform's style, and
    `get_factory`, which picks a factory from a platform name, ignoring case. */
module AbstractFactory {
  import opened Results

  /** The two concrete factories, `WindowsFactory` and `MacOSFactory`. They
      hold no state, so a factory is fully described by its platform. */
  datatype Platform = Windows | MacOS

  /** The concrete buttons. The constructor names keep the source's
      spelling of the class names (`WindosButton`). */
  datatype Button = WindosButton | MacOSButton

  /** The concrete checkboxes (`WindowsCheckbox`, `MackOSCheckbox`). */
  datatype Checkbox = WindowsCheckbox | MackOSCheckbox

  /** `Button.render` of each concrete button: the button announces the
      style of the platform its class belongs to. */
  function RenderButton(b: Button): (r: string)
    ensures r == "Rendering " + StyleName(ButtonFamily(b)) + "-style button"
  {
    match b
    case WindosButton => "Rendering Windows-style button"
    case MacOSButton => "Rendering MacOS-style button"
  }

  /** `Checkbox.render` of each concrete checkbox: the checkbox announces
      the style of the platform its class belongs to. */
  function RenderCheckbox(c: Checkbox): (r: string)
    ensures r == "Rendering " + StyleName(CheckboxFamily(c)) + "-style checkbox"
  {
    match c
    case WindowsCheckbox => "Rendering Windows-style checkbox"
    case MackOSCheckbox => "Rendering MacOS-style checkbox"
  }

  /** The platform a button's class belongs to. */
  function ButtonFamily(b: Button): Platform
  {
    match b
    case WindosButton => Windows
    case MacOSButton => MacOS
  }

  /** The platform a checkbox's class belongs to. */
  function CheckboxFamily(c: Checkbox): Platform
  {
    match c
    case WindowsCheckbox => Windows
    case MackOSCheckbox => MacOS
  }

  /** The style word the products of a platform put in their output. */
  function StyleName(f: Platform): string
  {
    match f
    case Windows => "Windows"
    case MacOS => "MacOS"
  }

  /** `create_button` of each factory: a new button of the factory's family. */
  function CreateButton(f: Platform): (b: Button)
    ensures ButtonFamily(b) == f
    ensures RenderButton(b) == "Rendering " + StyleName(f) + "-style button"
  {
    match f
    case Windows => WindosButton
    case MacOS => MacOSButton
  }

  /** `create_checkbox` of each factory: a new checkbox of the factory's family. */
  function CreateCheckbox(f: Platform): (c: Checkbox)
    ensures CheckboxFamily(c) == f
    ensures RenderCheckbox(c) == "Rendering " + StyleName(f) + "-style checkbox"
  {
    match f
    case Windows => WindowsCheckbox
    case MacOS => MackOSCheckbox
  }

  /** `Application`: the factory is stored once, by the constructor. */
  datatype Application = Application(factory: Platform)

  /** `Application.create_ui` without its printing: the (button, checkbox)
      pair, both made by the one factory the application holds. */
  function CreateUi(app: Application): (ui: (Button, Checkbox))
    ensures ButtonFamily(ui.0) == CheckboxFamily(ui.1) == app.factory
  {
    (CreateButton(app.factory), CreateCheckbox(app.factory))
  }

  /** What a rendered string says determines the product that rendered it:
      no two products of different families render alike. */
  lemma RenderDeterminesProduct(b1: Button, b2: Button, c1: Checkbox, c2: Checkbox)
    ensures RenderButton(b1) == RenderButton(b2) <==> b1 == b2
    ensures RenderCheckbox(c1) == RenderCheckbox(c2) <==> c1 == c2
    ensures RenderButton(b1) != RenderCheckbox(c1)
  {
  }

  // ---------------------------------------------------------------------
  // Lower-casing (ASCII letters only) and factory selection

  predicate IsUpper(c: char)
  {
    'A' <= c <= 'Z'
  }

  /** The lower-case form of one character: ASCII capitals map to their
      small letters, every other character is left as it is. */
  function LowerChar(c: char): (d: char)
    ensures IsUpper(c) ==> d as int == c as int + 32
    ensures !IsUpper(c) ==> d == c
    ensures !IsUpper(d)
  {
    if IsUpper(c) then (c as int - 'A' as int + 'a' as int) as char else c
  }

  /** `str.lower`, restricted to ASCII letters. */
  function Lower(s: string): (r: string)
    ensures |r| == |s|
    ensures forall i :: 0 <= i < |s| ==> r[i] == LowerChar(s[i])
  {
    if s == [] then [] else [LowerChar(s[0])] + Lower(s[1..])
  }

  /** Two strings that differ only in the case of their letters. */
  predicate EqualIgnoringCase(s: string, t: string)
  {
    |s| == |t| && forall i :: 0 <= i < |s| ==> LowerChar(s[i]) == LowerChar(t[i])
  }

  /** The table literal inside `get_factory`. */
  const Factories: map<string, Platform> := map["windows" := Windows, "macos" := MacOS]

  /** The exception `get_factory` raises. */
  datatype FactoryError = ValueError(message: string)

  /** `get_factory`: the factory registered under the lower-cased platform
      name; any other name raises ValueError, whose message repeats the
      argument as it was given. */
  function GetFactory(platform: string): (r: Result<Platform, FactoryError>)
    ensures r == Success(Windows) <==> EqualIgnoringCase(platform, "windows")
    ensures r == Success(MacOS) <==> EqualIgnoringCase(platform, "macos")
    ensures r.Failure? <==>
              !EqualIgnoringCase(platform, "windows") && !EqualIgnoringCase(platform, "macos")
    ensures r.Failure? ==> r.error == ValueError("Unsupported platform: " + platform)
  {
    var key := Lower(platform);
    LowerMatches(platform, "windows");
    LowerMatches(platform, "macos");
    if key in Factories then Success(Factories[key])
    else Failure(ValueError("Unsupported platform: " + platform))
  }

  /** Lower-casing `s` yields the all-small word `w` exactly when `s` spells
      `w` in some mixture of cases. */
  lemma LowerMatches(s: string, w: string)
    requires Lower(w) == w
    ensures Lower(s) == w <==> EqualIgnoringCase(s, w)
  {
  }

  /** Selection depends on the letters only, not on their case. */
  lemma GetFactoryIgnoresCase(s: string, t: string)
    requires EqualIgnoringCase(s, t)
    ensures GetFactory(s).Success? == GetFactory(t).Success?
    ensures GetFactory(s).Success? ==> GetFactory(s).value == GetFactory(t).value
  {
  }

  /** The platforms the script itself asks for, and the one it rejects. */
  lemma GetFactoryExamples()
    ensures GetFactory("Windows") == Success(Windows)
    ensures GetFactory("WINDOWS") == Success(Windows)
    ensures GetFactory("MacOS") == Success(MacOS)
    ensures GetFactory("linux") == Failure(ValueError("Unsupported platform: linux"))
  {
    assert EqualIgnoringCase("Windows", "windows");
    assert EqualIgnoringCase("WINDOWS", "windows");
    assert EqualIgnoringCase("MacOS", "macos");
    assert LowerChar("linux"[0]) != LowerChar("macos"[0]);
    assert GetFactory("linux").Failure?;
    assert "Unsupported platform: " + "linux" == "Unsupported platform: linux";
  }
}
