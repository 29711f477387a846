/** The shared call-to-action button: which element it renders and the classes it carries. */
module Button {
  import opened Wrappers
  import opened Text

  datatype Variant = Primary | Secondary | Outline
  datatype Size = Sm | Md | Lg
  datatype ButtonType = TypeButton | TypeSubmit

  const BaseStyles := "inline-flex items-center justify-center font-semibold rounded-lg transition-all duration-300 cursor-pointer"

  function VariantStyle(v: Variant): string {
    match v
    case Primary => "bg-orange text-white hover:bg-amber shadow-lg hover:shadow-xl"
    case Secondary => "bg-charcoal text-white hover:bg-gray-600"
    case Outline => "border-2 border-white text-white hover:bg-white hover:text-charcoal"
  }

  function SizeStyle(s: Size): string {
    match s
    case Sm => "px-4 py-2 text-sm"
    case Md => "px-6 py-3 text-base"
    case Lg => "px-8 py-4 text-lg"
  }

  /** The prefixes of hrefs that leave the client-side router: phone, mail, absolute URLs and fragments. */
  const SpecialPrefixes: seq<string> := ["tel:", "mailto:", "http://", "https://", "#"]

  /** `isExternalOrSpecialHref`. */
  function IsExternalOrSpecialHref(href: string): bool {
    StartsWith(href, "tel:") || StartsWith(href, "mailto:") || StartsWith(href, "http://")
    || StartsWith(href, "https://") || StartsWith(href, "#")
  }

  /** The reference reading: the href starts with one of the listed prefixes. */
  ghost predicate HasSpecialPrefix(href: string) {
    exists i :: 0 <= i < |SpecialPrefixes| && StartsWith(href, SpecialPrefixes[i])
  }

  /** The chain of `startsWith` tests accepts exactly the hrefs with a listed prefix. */
  lemma SpecialMeansPrefixed(href: string)
    ensures IsExternalOrSpecialHref(href) <==> HasSpecialPrefix(href)
  {
    if IsExternalOrSpecialHref(href) {
      if StartsWith(href, "tel:") { assert StartsWith(href, SpecialPrefixes[0]); }
      else if StartsWith(href, "mailto:") { assert StartsWith(href, SpecialPrefixes[1]); }
      else if StartsWith(href, "http://") { assert StartsWith(href, SpecialPrefixes[2]); }
      else if StartsWith(href, "https://") { assert StartsWith(href, SpecialPrefixes[3]); }
      else { assert StartsWith(href, SpecialPrefixes[4]); }
    }
  }

  /** A path within the site, such as "/contact", is not special. */
  lemma SitePathIsNotSpecial(href: string)
    requires |href| > 0 && href[0] == '/'
    ensures !IsExternalOrSpecialHref(href)
  {
    forall i | 0 <= i < |SpecialPrefixes| ensures !StartsWith(href, SpecialPrefixes[i]) {
      var p := SpecialPrefixes[i];
      if |p| <= |href| {
        assert href[..|p|][0] == '/' != p[0];
      }
    }
    SpecialMeansPrefixed(href);
  }

  /** The class string: base, variant, size and caller classes joined by single spaces. */
  function Classes(v: Variant, s: Size, className: string): string {
    BaseStyles + " " + VariantStyle(v) + " " + SizeStyle(s) + " " + className
  }

  /** The props; every one is optional. */
  datatype ButtonProps = ButtonProps(
    variant: Option<Variant>, href: Option<string>, onClick: bool,
    buttonType: Option<ButtonType>, className: Option<string>, size: Option<Size>)

  /** What is rendered: a plain anchor, a client-side link, or a button (which alone takes the click handler). */
  datatype Element =
    | Anchor(href: string, classes: string)
    | NextLink(href: string, classes: string)
    | HtmlButton(buttonType: ButtonType, onClick: bool, classes: string)

  /** The element `Button` renders for its props. */
  function Render(p: ButtonProps): (e: Element)
    ensures e.classes == Classes(p.variant.GetOr(Primary), p.size.GetOr(Md), p.className.GetOr(""))
    ensures e.Anchor? <==> p.href.Some? && p.href.value != "" && HasSpecialPrefix(p.href.value)
    ensures e.NextLink? <==> p.href.Some? && p.href.value != "" && !HasSpecialPrefix(p.href.value)
    ensures e.HtmlButton? <==> p.href.None? || p.href.value == ""
    ensures !e.HtmlButton? ==> e.href == p.href.value
    ensures e.HtmlButton? ==> e.buttonType == p.buttonType.GetOr(TypeButton) && e.onClick == p.onClick
  {
    var styles := Classes(p.variant.GetOr(Primary), p.size.GetOr(Md), p.className.GetOr(""));
    SpecialMeansPrefixed(p.href.GetOr(""));
    if p.href.Some? && p.href.value != "" then
      if IsExternalOrSpecialHref(p.href.value) then Anchor(p.href.value, styles)
      else NextLink(p.href.value, styles)
    else HtmlButton(p.buttonType.GetOr(TypeButton), p.onClick, styles)
  }
}
