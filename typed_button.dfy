/**
 * The typed copy of `Button` (`button.tsx`): variant and size are closed
 * enumerations, and the class string is the same `baseClasses` expression
 * as in the untyped copy, applied to the typed props after defaulting.
 */
module TypedButton {
  import opened Wrappers
  import Button

  /** `ButtonVariant`. */
  datatype Variant = Primary | Secondary | Outline | Ghost {
    /** The string the variant is at run time, used as a style-table key. */
    function Key(): string {
      match this
      case Primary => "primary"
      case Secondary => "secondary"
      case Outline => "outline"
      case Ghost => "ghost"
    }
  }

  /** `ButtonSize`. */
  datatype Size = Small | Medium | Large {
    /** The string the size is at run time, used as a style-table key. */
    function Key(): string {
      match this
      case Small => "small"
      case Medium => "medium"
      case Large => "large"
    }
  }

  /** The four optional style props of `ButtonProps`. */
  datatype Props = Props(
    variant: Option<Variant>,
    size: Option<Size>,
    fullWidth: Option<bool>,
    className: Option<string>)

  /** The style props after destructuring with the typed defaults. */
  datatype Settings = Settings(variant: Variant, size: Size, fullWidth: bool, className: string)

  function WithDefaults(p: Props): Settings {
    Settings(p.variant.GetOr(Primary), p.size.GetOr(Medium), p.fullWidth.GetOr(false), p.className.GetOr(""))
  }

  /** The props as the untyped copy sees them at run time: enum values become their strings. */
  function Erase(p: Props): Button.Props {
    Button.Props(
      (match p.variant case Some(v) => Some(v.Key()) case None => None),
      (match p.size case Some(z) => Some(z.Key()) case None => None),
      p.fullWidth,
      p.className)
  }

  function EraseSettings(s: Settings): Button.Settings {
    Button.Settings(s.variant.Key(), s.size.Key(), s.fullWidth, s.className)
  }

  /** The class string the typed `Button` computes. */
  function ClassName(styles: Button.StyleTable, p: Props): string {
    Button.BaseClasses(styles, EraseSettings(WithDefaults(p)))
  }

  /**
   * The typed defaults are the same as the untyped ones: defaulting then
   * erasing the types is erasing then defaulting.
   */
  lemma DefaultsAgree(p: Props)
    ensures EraseSettings(WithDefaults(p)) == Button.WithDefaults(Erase(p))
    ensures EraseSettings(WithDefaults(Props(None, None, None, None))) ==
      Button.Settings(Button.DefaultVariant, Button.DefaultSize, Button.DefaultFullWidth, Button.DefaultClassName)
  {
  }

  /** The two copies produce the same class string for the same table and props. */
  lemma CopiesAgree(styles: Button.StyleTable, p: Props)
    ensures ClassName(styles, p) == Button.ClassName(styles, Erase(p))
  {
    DefaultsAgree(p);
  }

  /**
   * No typed variant or size names the base or the fullWidth entry, nor a
   * member every JavaScript object inherits.
   */
  lemma KeysAvoidReserved(v: Variant, z: Size)
    ensures v.Key() !in {"button", "fullWidth"} && z.Key() !in {"button", "fullWidth"}
    ensures v.Key() !in Button.InheritedMembers && z.Key() !in Button.InheritedMembers
  {
  }

  /**
   * With typed props and the flag off, the table's fullWidth entry never
   * contributes: the untyped copy's "fullWidth" variant cannot be written.
   */
  lemma FullWidthOffIgnoresEntry(styles: Button.StyleTable, p: Props)
    requires !WithDefaults(p).fullWidth
    ensures ClassName(styles, p) == ClassName(styles - {"fullWidth"}, p)
  {
    var s := WithDefaults(p);
    KeysAvoidReserved(s.variant, s.size);
    Button.FullWidthOffIgnoresEntry(styles, EraseSettings(s));
  }
}
