/** The shared Button component: it resolves its optional props to their
    defaults, composes the class attribute from lookup tables, and renders
    either a link (when given a non-empty `href`) or a plain button. The
    rendered tree is reduced to what the props decide. */
module Button {
  import opened Common

  datatype Variant = Primary | Secondary | Outline | Cyberpunk | Neon | Holographic

  datatype Size = Sm | Md | Lg

  /** An `onClick` callback, identified but never run here. */
  type Handler = nat

  /** The props; None stands for an omitted prop. `icon` is the node to
      show, by name. */
  datatype ButtonProps = ButtonProps(
    variant: Option<Variant>, size: Option<Size>, className: Option<string>,
    onClick: Option<Handler>, href: Option<string>, icon: Option<string>, glitch: Option<bool>)

  const BaseClasses := "future-button rounded-lg font-medium transition-all flex items-center justify-center"

  function VariantClasses(v: Variant): string
  {
    match v
    case Primary => "bg-accent text-white hover:bg-accent-dark shadow-neon hover:shadow-neon-lg"
    case Secondary => "bg-primary-light/70 text-white backdrop-blur-sm hover:bg-primary-light"
    case Outline => "bg-transparent border-2 border-accent/60 text-accent hover:border-accent/90 hover:bg-accent/10 hover:text-white"
    case Cyberpunk => "relative border-2 border-cyber-blue bg-transparent text-cyber-blue hover:text-white hover:bg-cyber-blue/20 neon-text"
    case Neon => "bg-accent/80 text-white border border-white/20 shadow-neon hover:shadow-neon-lg"
    case Holographic => "bg-black/30 backdrop-blur-sm border border-white/30 text-white hover:border-white/50 hover:bg-black/40"
  }

  function SizeClasses(s: Size): string
  {
    match s
    case Sm => "text-sm py-2 px-3"
    case Md => "text-base py-2.5 px-5"
    case Lg => "text-lg py-3 px-6"
  }

  /** `${baseClasses} ${variantClasses[variant]} ${sizeClasses[size]} ${className}` */
  function ClassString(v: Variant, s: Size, className: string): string
  {
    BaseClasses + " " + VariantClasses(v) + " " + SizeClasses(s) + " " + className
  }

  /** The class attribute denotes the base classes, then the variant's,
      then the size's, then the caller's, each list in its own order; an
      empty `className` adds nothing. */
  lemma ClassTokens(v: Variant, s: Size, className: string)
    ensures Tokens(ClassString(v, s, className))
      == Tokens(BaseClasses) + Tokens(VariantClasses(v)) + Tokens(SizeClasses(s)) + Tokens(className)
  {
    var b, vc, sc := BaseClasses, VariantClasses(v), SizeClasses(s);
    TokensJoin(b + " " + vc + " " + sc, " ", className);
    TokensJoin(b + " " + vc, " ", sc);
    TokensJoin(b, " ", vc);
  }

  /** The props after their defaults: variant "primary", size "md",
      className "" and glitch false. */
  datatype Resolved = Resolved(variant: Variant, size: Size, className: string, glitch: bool)

  function Resolve(p: ButtonProps): (r: Resolved)
    ensures p.variant.None? ==> r.variant == Primary
    ensures p.variant.Some? ==> r.variant == p.variant.value
    ensures p.size.None? ==> r.size == Md
    ensures p.size.Some? ==> r.size == p.size.value
    ensures p.className.None? ==> r.className == ""
    ensures p.className.Some? ==> r.className == p.className.value
    ensures r.glitch <==> p.glitch == Some(true)
  {
    Resolved(
      match p.variant case Some(v) => v case None => Primary,
      match p.size case Some(s) => s case None => Md,
      match p.className case Some(c) => c case None => "",
      match p.glitch case Some(g) => g case None => false)
  }

  /** The decorations inside the button's content. */
  datatype Content = Content(borderSpan: bool, glitchSpan: bool, iconWrapper: Option<string>, glare: bool)

  datatype Element =
    | Anchor(href: string, className: string, target: Option<string>, rel: string, content: Content)
    | ButtonElement(className: string, onClick: Option<Handler>, buttonType: string, content: Content)

  /** `href.startsWith('http') ? '_blank' : undefined` */
  function Target(href: string): (t: Option<string>)
    ensures t == Some("_blank") <==> StartsWith(href, "http")
    ensures t.Some? ==> t.value == "_blank"
  {
    if StartsWith(href, "http") then Some("_blank") else None
  }

  function Render(p: ButtonProps): (e: Element)
    ensures e.Anchor? <==> p.href.Some? && p.href.value != ""
    ensures e.Anchor? ==> e.href == p.href.value && e.rel == "noopener noreferrer"
    ensures e.Anchor? ==> (e.target == Some("_blank") <==> StartsWith(e.href, "http"))
    ensures e.ButtonElement? ==> e.buttonType == "button" && e.onClick == p.onClick
    ensures var r := Resolve(p); e.className == ClassString(r.variant, r.size, r.className)
    ensures e.content.borderSpan <==> Resolve(p).variant == Cyberpunk
    ensures e.content.glare <==> Resolve(p).variant == Holographic
    ensures e.content.glitchSpan <==> p.glitch == Some(true)
    ensures e.content.iconWrapper == p.icon
  {
    var r := Resolve(p);
    var classes := ClassString(r.variant, r.size, r.className);
    var content := Content(r.variant == Cyberpunk, r.glitch, p.icon, r.variant == Holographic);
    match p.href
    case Some(h) =>
      if h != "" then Anchor(h, classes, Target(h), "noopener noreferrer", content)
      else ButtonElement(classes, p.onClick, "button", content)
    case None => ButtonElement(classes, p.onClick, "button", content)
  }

  /** With every prop omitted: a plain primary, medium button with no
      extra classes and no decorations. */
  lemma DefaultButton()
    ensures Render(ButtonProps(None, None, None, None, None, None, None))
      == ButtonElement(ClassString(Primary, Md, ""), None, "button", Content(false, false, None, false))
  {
  }

  /** At most one variant decoration is drawn. */
  lemma DecorationsExclusive(p: ButtonProps)
    ensures !(Render(p).content.borderSpan && Render(p).content.glare)
  {
  }
}
