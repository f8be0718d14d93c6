/**
 * The style-token tables and helpers of the frame components
 * (`features/contentful/components/frame/utils.ts`). Every table is total:
 * a value outside its switch arms takes the default arm.
 */
module FrameUtils {
  import opened Wrappers
  import opened Strings
  import Js
  import opened Content
  import LibUtils

  // ---------------------------------------------------------------- cx

  /** `classes.filter(Boolean)`: absent values and empty strings are dropped. */
  function TruthyClasses(classes: seq<Option<string>>): (kept: seq<string>)
    ensures forall i :: 0 <= i < |kept| ==> kept[i] != ""
    ensures |kept| <= |classes|
  {
    if |classes| == 0 then []
    else if Js.Truthy(classes[0]) then [classes[0].value] + TruthyClasses(classes[1..])
    else TruthyClasses(classes[1..])
  }

  /** One argument is kept exactly when it is truthy. */
  lemma TruthyClassesSingle(c: Option<string>)
    ensures TruthyClasses([c]) == if Js.Truthy(c) then [c.value] else []
  {
    assert [c][1..] == [];
  }

  /**
   * `cx(...classes)`: the truthy classes in order, joined with single spaces;
   * when no class holds a space, splitting the result on spaces gives them back.
   */
  function Cx(classes: seq<Option<string>>): (r: string)
    ensures |TruthyClasses(classes)| > 0 && (forall k :: 0 <= k < |TruthyClasses(classes)| ==> ' ' !in TruthyClasses(classes)[k])
      ==> Split(r, ' ') == TruthyClasses(classes)
  {
    var kept := TruthyClasses(classes);
    assert |kept| > 0 && (forall k :: 0 <= k < |kept| ==> ' ' !in kept[k]) ==> Split(Join(kept, ' '), ' ') == kept by {
      if |kept| > 0 && (forall k :: 0 <= k < |kept| ==> ' ' !in kept[k]) {
        SplitJoin(kept, ' ');
      }
    }
    Join(kept, ' ')
  }

  /** Two class strings joined the way `cx` joins them: a space only between two non-empty ones. */
  function Glue(a: string, b: string): string {
    if a == "" then b else if b == "" then a else a + " " + b
  }

  /** Filtering a concatenation keeps the survivors of each half, in order. */
  lemma {:induction false} TruthyClassesAppend(a: seq<Option<string>>, b: seq<Option<string>>)
    ensures TruthyClasses(a + b) == TruthyClasses(a) + TruthyClasses(b)
  {
    if |a| > 0 {
      assert (a + b)[1..] == a[1..] + b;
      TruthyClassesAppend(a[1..], b);
    } else {
      assert a + b == b;
    }
  }

  lemma {:induction false} JoinAppend(xs: seq<string>, ys: seq<string>, sep: char)
    requires |xs| > 0 && |ys| > 0
    ensures Join(xs + ys, sep) == Join(xs, sep) + [sep] + Join(ys, sep)
  {
    if |xs| > 1 {
      assert (xs + ys)[1..] == xs[1..] + ys;
      JoinAppend(xs[1..], ys, sep);
    } else {
      assert (xs + ys)[1..] == ys;
    }
  }

  lemma {:induction false} JoinEmptyIff(xs: seq<string>, sep: char)
    requires forall i :: 0 <= i < |xs| ==> xs[i] != ""
    ensures Join(xs, sep) == "" <==> xs == []
  {
    if |xs| > 1 {
      assert |Join(xs, sep)| >= |xs[0]|;
    }
  }

  /** `cx` is compositional: the classes of a concatenation are the glued classes of its halves. */
  lemma CxAppend(a: seq<Option<string>>, b: seq<Option<string>>)
    ensures Cx(a + b) == Glue(Cx(a), Cx(b))
  {
    TruthyClassesAppend(a, b);
    JoinEmptyIff(TruthyClasses(a), ' ');
    JoinEmptyIff(TruthyClasses(b), ' ');
    if |TruthyClasses(a)| > 0 && |TruthyClasses(b)| > 0 {
      JoinAppend(TruthyClasses(a), TruthyClasses(b), ' ');
    } else if |TruthyClasses(a)| == 0 {
      assert TruthyClasses(a) + TruthyClasses(b) == TruthyClasses(b);
    } else {
      assert TruthyClasses(a) + TruthyClasses(b) == TruthyClasses(a);
    }
  }

  /** `cx` of one argument is that argument, or "" when it is falsy. */
  lemma CxSingle(c: Option<string>)
    ensures Cx([c]) == if Js.Truthy(c) then c.value else ""
  {
    assert [c][1..] == [];
  }

  /** `cx` yields "" exactly when no argument is truthy. */
  lemma {:induction false} CxEmptyIff(classes: seq<Option<string>>)
    ensures Cx(classes) == "" <==> forall i :: 0 <= i < |classes| ==> !Js.Truthy(classes[i])
  {
    JoinEmptyIff(TruthyClasses(classes), ' ');
    if |classes| > 0 {
      CxEmptyIff(classes[1..]);
      assert forall i :: 1 <= i < |classes| ==> classes[i] == classes[1..][i - 1];
    }
  }

  // ---------------------------------------------------------------- overlay and colours

  /** The dim percentages the overlay accepts. */
  predicate IsDimLevel(dim: Option<string>) {
    dim.Some? && dim.value in {"10", "20", "30", "40", "50"}
  }

  /** `opacityFromDim`: a valid level maps to itself, anything else to the safe default "30". */
  function OpacityFromDim(dim: Option<string>): (op: string)
    ensures IsDimLevel(Some(op))
    ensures IsDimLevel(dim) ==> op == dim.value
    ensures !IsDimLevel(dim) ==> op == "30"
  {
    if dim == Some("10") then "10"
    else if dim == Some("20") then "20"
    else if dim == Some("30") then "30"
    else if dim == Some("40") then "40"
    else if dim == Some("50") then "50"
    else "30"
  }

  /** The brand colours, which have their own token family. */
  predicate IsBrand(color: string) {
    color == "primary" || color == "secondary" || color == "accent"
  }

  /**
   * `getOverlayFromOptions`: a brand tint blends its colour at the dim opacity;
   * black, "none" and an absent tint give a plain black dim.
   */
  function OverlayFromOptions(dim: Option<string>, tint: Option<string>): (r: string)
    ensures r != ""
    ensures tint.Some? && IsBrand(tint.value) ==>
      r == "bg-" + tint.value + "/" + OpacityFromDim(dim) + " mix-blend-multiply"
    ensures !(tint.Some? && IsBrand(tint.value)) ==> r == "bg-black/" + OpacityFromDim(dim)
  {
    var op := OpacityFromDim(dim);
    // The three brand arms differ only in the colour name; the "black" arm equals the default.
    if tint.Some? && IsBrand(tint.value) then "bg-" + tint.value + "/" + op + " mix-blend-multiply"
    else "bg-black/" + op
  }

  /**
   * `getTextClassFromBgColor`: the foreground token of a known colour;
   * otherwise the theme decides, with "text-foreground" for an unknown theme.
   */
  function TextClassFromBgColor(theme: string, color: string): (r: string)
    ensures StartsWith(r, "text-")
    ensures IsBrand(color) ==> r == "text-" + color + "-foreground"
    ensures color == "neutral" ==> r == "text-foreground"
    ensures !IsBrand(color) && color != "neutral" ==>
      r == (if theme == "dark" then "text-white" else if theme == "light" then "text-black" else "text-foreground")
  {
    if color == "primary" then "text-primary-foreground"
    else if color == "secondary" then "text-secondary-foreground"
    else if color == "accent" then "text-accent-foreground"
    else if color == "neutral" then "text-foreground"
    else if theme == "dark" then "text-white"
    else if theme == "light" then "text-black"
    else "text-foreground"
  }

  /** The background token `getBgClass` pairs with each colour. */
  function SurfaceToken(color: string): (t: string)
    ensures StartsWith(t, "bg-")
    ensures IsBrand(color) ==> t == "bg-" + color
    ensures color == "neutral" ==> t == "bg-background"
    ensures !IsBrand(color) && color != "neutral" ==> t == "bg-transparent"
  {
    if color == "primary" then "bg-primary"
    else if color == "secondary" then "bg-secondary"
    else if color == "accent" then "bg-accent"
    else if color == "neutral" then "bg-background"
    else "bg-transparent"
  }

  /** The text token of a transparent or unknown surface, chosen by the theme. */
  function ThemeText(theme: string): (t: string)
    ensures theme == "dark" ==> t == "text-white"
    ensures theme == "light" ==> t == "text-black"
    ensures theme != "dark" && theme != "light" ==> t == "text-primary-foreground"
  {
    if theme == "dark" then "text-white" else if theme == "light" then "text-black" else "text-primary-foreground"
  }

  /**
   * `getBgClass`: each colour paired with its foreground; "transparent" and
   * unknown colours give "bg-transparent" and a theme text token, which for an
   * unknown theme is "text-primary-foreground".
   */
  function BgClass(theme: string, color: string): (r: string)
    ensures StartsWith(r, "bg-")
    ensures !IsBrand(color) && color != "neutral" ==> StartsWith(r, "bg-transparent ")
    ensures IsBrand(color) || color == "neutral" ==> r == SurfaceToken(color) + " " + TextClassFromBgColor(theme, color)
    ensures !IsBrand(color) && color != "neutral" ==> r == "bg-transparent " + ThemeText(theme)
    ensures IsBrand(color) || color == "neutral" || theme == "dark" || theme == "light" ==>
      r == SurfaceToken(color) + " " + TextClassFromBgColor(theme, color)
  {
    var text := if IsBrand(color) || color == "neutral" then TextClassFromBgColor(theme, color) else ThemeText(theme);
    StartsWithAppend(SurfaceToken(color), " " + text, "bg-");
    assert SurfaceToken(color) + " " + text == SurfaceToken(color) + (" " + text);
    assert SurfaceToken(color) + " " + text == (SurfaceToken(color) + " ") + text;
    StartsWithAppend(SurfaceToken(color) + " ", text, SurfaceToken(color) + " ");
    SurfaceToken(color) + " " + text
  }

  /**
   * The surface class ends with the same text token that a background image
   * would force, except for a transparent or unknown colour under a theme that
   * is neither "dark" nor "light" (the surface then says
   * "text-primary-foreground", the image case "text-foreground").
   */
  lemma BgClassCarriesImageTextToken(theme: string, color: string)
    ensures EndsWith(BgClass(theme, color), " " + TextClassFromBgColor(theme, color))
      <==> (IsBrand(color) || color == "neutral" || theme == "dark" || theme == "light")
  {
    var text := " " + TextClassFromBgColor(theme, color);
    if IsBrand(color) || color == "neutral" || theme == "dark" || theme == "light" {
      assert BgClass(theme, color) == SurfaceToken(color) + text;
      EndsWithAppend(SurfaceToken(color), text);
    } else {
      TransparentSurfaceMissesImageText(theme, color);
    }
  }

  /** The unknown-theme surface ends in "text-primary-foreground", never in " text-foreground". */
  lemma TransparentSurfaceMissesImageText(theme: string, color: string)
    requires !IsBrand(color) && color != "neutral" && theme != "dark" && theme != "light"
    ensures !EndsWith(BgClass(theme, color), " " + TextClassFromBgColor(theme, color))
  {
    var surface, text := "bg-transparent ", ThemeText(theme);
    var suffix := " " + TextClassFromBgColor(theme, color);
    assert BgClass(theme, color) == surface + text;
    assert |suffix| == 16 && |surface + text| == 38;
    assert (surface + text)[22] == text[7] == 'i';
    assert suffix[0] == ' ';
  }

  /** `getOverlayClass`: fixed tints for the four known colours, black at 30% otherwise. */
  function OverlayClass(color: string): (r: string)
    ensures color == "primary" ==> r == "bg-primary/50"
    ensures color == "secondary" ==> r == "bg-secondary/50"
    ensures color == "accent" ==> r == "bg-accent/45"
    ensures color == "neutral" ==> r == "bg-neutral/40"
    ensures !IsBrand(color) && color != "neutral" ==> r == OverlayFromOptions(None, None)
  {
    if color == "primary" then "bg-primary/50"
    else if color == "secondary" then "bg-secondary/50"
    else if color == "accent" then "bg-accent/45"
    else if color == "neutral" then "bg-neutral/40"
    else "bg-black/30"
  }

  // ---------------------------------------------------------------- spacing and layout

  predicate IsGap(gap: Option<string>) {
    gap.Some? && gap.value in {"sm", "md", "lg", "xl"}
  }

  /** `getGapClass`: an unknown or absent gap is "md". */
  function GapClass(gap: Option<string>): (r: string)
    ensures StartsWith(r, "gap-")
    ensures gap == Some("sm") ==> r == "gap-4"
    ensures gap == Some("md") ==> r == "gap-6"
    ensures gap == Some("lg") ==> r == "gap-8"
    ensures gap == Some("xl") ==> r == "gap-12"
    ensures !IsGap(gap) ==> r == "gap-6"
  {
    if gap == Some("sm") then "gap-4"
    else if gap == Some("md") then "gap-6"
    else if gap == Some("lg") then "gap-8"
    else if gap == Some("xl") then "gap-12"
    else "gap-6"
  }

  /** Distinct known gaps give distinct classes; everything else coincides with "md". */
  lemma GapClassInjective(a: Option<string>, b: Option<string>)
    requires IsGap(a) && IsGap(b) && a != b
    ensures GapClass(a) != GapClass(b)
  {
  }

  predicate IsPadding(padding: Option<string>) {
    padding.Some? && padding.value in {"none", "sm", "md", "lg", "xl", "xxl"}
  }

  /** The horizontal padding every padding class starts with. */
  const HorizontalPadding := "px-4 sm:px-6 md:px-8 "

  /** `getPaddingClass`: fixed mobile-first horizontal padding, vertical padding by size; unknown is "md". */
  function PaddingClass(padding: Option<string>): (r: string)
    ensures StartsWith(r, HorizontalPadding + "py-")
    ensures padding == Some("none") ==> r == HorizontalPadding + "py-0"
    ensures padding == Some("sm") ==> r == HorizontalPadding + "py-8"
    ensures padding == Some("md") ==> r == HorizontalPadding + "py-12"
    ensures padding == Some("lg") ==> r == HorizontalPadding + "py-16"
    ensures padding == Some("xl") ==> r == HorizontalPadding + "py-24"
    ensures padding == Some("xxl") ==> r == HorizontalPadding + "py-32"
    ensures !IsPadding(padding) ==> r == HorizontalPadding + "py-12"
  {
    var vertical :=
      if padding == Some("none") then "0"
      else if padding == Some("sm") then "8"
      else if padding == Some("md") then "12"
      else if padding == Some("lg") then "16"
      else if padding == Some("xl") then "24"
      else if padding == Some("xxl") then "32"
      else "12";
    StartsWithAppend(HorizontalPadding + "py-", vertical, HorizontalPadding + "py-");
    HorizontalPadding + "py-" + vertical
  }

  /** Distinct known paddings give distinct classes. */
  lemma PaddingClassInjective(a: Option<string>, b: Option<string>)
    requires IsPadding(a) && IsPadding(b) && a != b
    ensures PaddingClass(a) != PaddingClass(b)
  {
  }

  /** The single-column grid every grid layout starts from. */
  const SingleColumn := "grid grid-cols-1"

  /** `getLayoutClass`: hero and unknown layouts share the single-column grid. */
  function LayoutClass(layout: string): (r: string)
    ensures StartsWith(r, "flex ") <==> layout == "carousel" || layout == "list"
    ensures layout != "carousel" && layout != "list" ==> StartsWith(r, SingleColumn)
    ensures layout !in {"duplex", "grid", "carousel", "list"} ==> r == SingleColumn
    ensures layout == "duplex" ==> r == SingleColumn + " md:grid-cols-2"
    ensures layout == "grid" ==> r == SingleColumn + " sm:grid-cols-2 lg:grid-cols-3"
    ensures layout == "carousel" ==> r == "flex " + "overflow-x-auto snap-x snap-mandatory"
    ensures layout == "list" ==> r == "flex " + "flex-col"
  {
    if layout == "carousel" || layout == "list" then
      var rest := if layout == "carousel" then "overflow-x-auto snap-x snap-mandatory" else "flex-col";
      StartsWithAppend("flex ", rest, "flex ");
      "flex " + rest
    else
      var columns := if layout == "duplex" then " md:grid-cols-2" else if layout == "grid" then " sm:grid-cols-2 lg:grid-cols-3" else "";
      StartsWithAppend(SingleColumn, columns, SingleColumn);
      NotStartsWithAt(SingleColumn + columns, "flex ", 0);
      SingleColumn + columns
  }

  // ---------------------------------------------------------------- renderAsset

  /** What `renderAsset` is given: an asset object or a URL string. */
  datatype AssetArg = AssetValue(asset: Asset) | UrlValue(url: string)

  /** What `renderAsset` returns: nothing, the "Image unavailable" placeholder, or an image. */
  datatype RenderedAsset = NoRender | Unavailable(className: string) | Img(src: string, alt: string, className: string)

  const PlaceholderClass := "aspect-video w-full rounded-md border border-dashed text-sm grid place-items-center text-muted-foreground/70"
  const ImageClass := "w-full h-auto object-cover"

  /** The URL `renderAsset` starts from. */
  function ArgUrl(arg: AssetArg): string {
    match arg
    case UrlValue(u) => u
    case AssetValue(a) => LibUtils.ExtractContentfulAssetUrl(Some(a))
  }

  /** The alt text: the asset's title (`?? ""`), and "" for a bare URL. */
  function ArgTitle(arg: AssetArg): string {
    match arg
    case UrlValue(_) => ""
    case AssetValue(a) => if a.fields.Some? then a.fields.value.title.GetOr("") else ""
  }

  /** `renderAsset(asset, className)`. */
  function RenderAsset(asset: Option<AssetArg>, className: Option<string>): (r: RenderedAsset)
    ensures r == NoRender <==> asset.None? || asset == Some(UrlValue(""))
    ensures r.Unavailable? <==> asset.Some? && asset.value.AssetValue? && ArgUrl(asset.value) == ""
    ensures r.Unavailable? ==> r.className == className.GetOr(PlaceholderClass)
    ensures r.Img? ==> ArgUrl(asset.value) != "" && r.alt == ArgTitle(asset.value) && r.className == className.GetOr(ImageClass)
    ensures r.Img? ==> !StartsWith(r.src, "//")
    ensures r.Img? ==> r.src == (if StartsWith(ArgUrl(asset.value), "//") then "https:" + ArgUrl(asset.value) else ArgUrl(asset.value))
  {
    if asset.None? || asset == Some(UrlValue("")) then NoRender
    else
      var url := ArgUrl(asset.value);
      if url == "" then Unavailable(className.GetOr(PlaceholderClass))
      else
        var src := if StartsWith(url, "//") then "https:" + url else url;
        assert StartsWith(url, "//") ==> src[0] == 'h';
        Img(src, ArgTitle(asset.value), className.GetOr(ImageClass))
  }
}
