/** The content-generation endpoint. With an agent webhook configured it
    forwards the request body and passes the agent's answer through; without
    one it builds a fixed mock article around the requested theme. */
module Generate {
  import opened Wrappers
  import opened Text

  /** The members of the request body the route reads; any may be absent. */
  datatype Fields = Fields(
    theme: Option<string>,
    context: Option<string>,
    audience: Option<string>,
    tone: Option<string>,
    cta_text: Option<string>,
    cta_link: Option<string>)

  datatype Cta = Cta(text: string, link: string)

  /** The mock answer. `theme` is echoed as given (and so may be absent). */
  datatype Mock = Mock(
    theme: Option<string>,
    audience: string,
    tone: string,
    cta: Cta,
    titles: seq<string>,
    image_ideas: seq<string>,
    lede: string,
    bullets: seq<string>,
    highlights: seq<string>,
    tags: seq<string>,
    full_text: string)

  /** The fixed phrases of the mock, in the order they appear. */
  const TitleAll: string := "Tudo sobre "
  const TitleTips: string := "3 Dicas essenciais sobre "
  const TitleKnow: string := "O que você precisa saber sobre "
  const PhotoHead: string := "Foto profissional mostrando "
  const PhotoTail: string := " em contexto prático"
  const Infographic: string := "Infográfico resumindo os benefícios de "
  const LedeHead: string := "Descubra como "
  const LedeTail: string := " pode transformar seus resultados. Uma análise direta e essencial para quem busca eficiência."
  const Bullet: string := "\U{1F538} "
  const PointHead: string := "Ponto principal sobre "
  const PointTail: string := " que todos devem saber."
  const BenefitHead: string := "Benefício direto da aplicação correta de "
  const MistakeHead: string := "Erro comum que deve ser evitado ao lidar com "
  const Dot: string := "."
  const GoldenTip: string := "Dica de ouro para maximizar resultados."
  const ImportantHead: string := "*Importante*: "
  const ImportantTail: string := " é a tendência do momento."
  const StartToday: string := "*Dica*: Comece hoje mesmo."
  /** The headings and line markers of `full_text`. */
  const ThemeHead: string := "TEMA: "
  const TitlesHead: string := "TÍTULOS:\n"
  const ImagesHead: string := "IMAGEM/ARTE:\n"
  const LedeSection: string := "LIDE:\n"
  const BodyHead: string := "CORPO:\n"
  const CtaHead: string := "CTA:\n"
  const NewLine: string := "\n"
  const Num1: string := "1) "
  const Num2: string := "2) "
  const Num3: string := "3) "
  const LetterA: string := "A) "
  const LetterB: string := "B) "

  const Tags: seq<string> := ["inovação", "eficiência", "gestão"]

  const DefaultAudience: string := "Geral"
  const DefaultTone: string := "profissional_direto"
  const DefaultCtaText: string := "Saiba mais"

  const AgentError: string := "Falha na comunicação com o agente."
  const ServerError: string := "Internal Server Error"

  /** `${theme}`: an absent theme is interpolated as `undefined`. */
  function Show(v: Option<string>): string {
    match v
    case None => "undefined"
    case Some(s) => s
  }

  /** The mock article for the request fields. */
  function MockResponse(f: Fields): Mock {
    var t := Show(f.theme);
    var cta := Or(f.cta_text, DefaultCtaText);
    Mock(
      f.theme,
      Or(f.audience, DefaultAudience),
      Or(f.tone, DefaultTone),
      Cta(cta, Or(f.cta_link, "")),
      [TitleAll + t, TitleTips + t, TitleKnow + t],
      [PhotoHead + t + PhotoTail, Infographic + t],
      LedeHead + t + LedeTail,
      [Bullet + PointHead + t + PointTail,
       Bullet + BenefitHead + t + Dot,
       Bullet + MistakeHead + t + Dot,
       Bullet + GoldenTip],
      [ImportantHead + t + ImportantTail, StartToday],
      Tags,
      Template(t, cta))
  }

  /** The `full_text` template, with `t` for each `${theme}` and `cta` for
      the final `${cta_text || "Saiba mais"}`: the `TEMA` line, the middle
      sections, and the call to action. */
  function Template(t: string, cta: string): string {
    (ThemeHead + t + NewLine + NewLine) + TemplateMiddle(t) + (CtaHead + cta)
  }

  /** The sections of the template between the `TEMA` line and the call to action. */
  function TemplateMiddle(t: string): string {
    (TitlesHead
       + Num1 + TitleAll + t + NewLine
       + Num2 + TitleTips + t + NewLine
       + Num3 + TitleKnow + t + NewLine + NewLine)
    + (ImagesHead
       + LetterA + PhotoHead + t + PhotoTail + NewLine
       + LetterB + Infographic + t + NewLine + NewLine)
    + (LedeSection
       + LedeHead + t + LedeTail + NewLine + NewLine)
    + (BodyHead
       + Bullet + PointHead + t + PointTail + NewLine
       + Bullet + BenefitHead + t + Dot + NewLine
       + Bullet + MistakeHead + t + Dot + NewLine
       + Bullet + GoldenTip + NewLine + NewLine)
  }

  /** The article layout, built from the separate fields: a `TEMA` line, the
      numbered titles, the lettered image ideas, the lede, the bullets and
      the call to action, in sections separated by blank lines. */
  function Layout(theme: string, titles: seq<string>, ideas: seq<string>, lede: string,
                  bullets: seq<string>, cta: string): string
    requires |titles| == 3 && |ideas| == 2 && |bullets| == 4
  {
    (ThemeHead + theme + NewLine + NewLine)
    + (TitlesHead + Num1 + titles[0] + NewLine + Num2 + titles[1] + NewLine + Num3 + titles[2] + NewLine + NewLine)
    + (ImagesHead + LetterA + ideas[0] + NewLine + LetterB + ideas[1] + NewLine + NewLine)
    + (LedeSection + lede + NewLine + NewLine)
    + (BodyHead + bullets[0] + NewLine + bullets[1] + NewLine + bullets[2] + NewLine + bullets[3] + NewLine + NewLine)
    + (CtaHead + cta)
  }

  /** The defaults: an absent or empty audience, tone, call-to-action text
      or link is replaced by `Geral`, `profissional_direto`, `Saiba mais`
      and the empty string; the theme is echoed as given. */
  lemma MockDefaults(f: Fields)
    ensures var m := MockResponse(f);
      && m.theme == f.theme
      && (Truthy(f.audience) ==> m.audience == f.audience.value)
      && (!Truthy(f.audience) ==> m.audience == "Geral")
      && (Truthy(f.tone) ==> m.tone == f.tone.value)
      && (!Truthy(f.tone) ==> m.tone == "profissional_direto")
      && (Truthy(f.cta_text) ==> m.cta.text == f.cta_text.value)
      && (!Truthy(f.cta_text) ==> m.cta.text == "Saiba mais")
      && (Truthy(f.cta_link) ==> m.cta.link == f.cta_link.value)
      && (!Truthy(f.cta_link) ==> m.cta.link == "")
  {
  }

  /** The fixed shape of the mock: three titles, two image ideas, four
      bullets each opening with the diamond marker, two highlights, the three
      fixed tags, and every title ending with the theme. */
  lemma MockShape(f: Fields)
    ensures var m := MockResponse(f);
      && |m.titles| == 3 && |m.image_ideas| == 2 && |m.bullets| == 4 && |m.highlights| == 2
      && m.tags == ["inovação", "eficiência", "gestão"]
      && (forall k :: 0 <= k < |m.bullets| ==> "\U{1F538} " <= m.bullets[k])
      && (forall k :: 0 <= k < |m.titles| ==> Show(f.theme) <= m.titles[k][|m.titles[k]| - |Show(f.theme)|..])
  {
    var m := MockResponse(f);
    var t := Show(f.theme);
    Opens(Bullet, PointHead + t + PointTail);
    assert m.bullets[0] == Bullet + (PointHead + t + PointTail);
    Opens(Bullet, BenefitHead + t + Dot);
    assert m.bullets[1] == Bullet + (BenefitHead + t + Dot);
    Opens(Bullet, MistakeHead + t + Dot);
    assert m.bullets[2] == Bullet + (MistakeHead + t + Dot);
    Opens(Bullet, GoldenTip);
    Closes(TitleAll, t);
    Closes(TitleTips, t);
    Closes(TitleKnow, t);
  }

  lemma Opens(a: string, b: string)
    ensures a <= a + b
  {
  }

  lemma Closes(a: string, b: string)
    ensures (a + b)[|a + b| - |b|..] == b
  {
  }

  /** `full_text` is the layout of the mock's own fields: its numbered lines
      are the titles, its lettered lines the image ideas, then the lede, the
      bullets and the call-to-action text. */
  lemma FullTextIsLayout(f: Fields)
    ensures var m := MockResponse(f);
      |m.titles| == 3 && |m.image_ideas| == 2 && |m.bullets| == 4
      && m.full_text == Layout(Show(f.theme), m.titles, m.image_ideas, m.lede, m.bullets, m.cta.text)
  {
    TemplateRegrouped(Show(f.theme), Or(f.cta_text, DefaultCtaText),
      TitleAll, TitleTips, TitleKnow, PhotoHead, PhotoTail, Infographic, LedeHead, LedeTail,
      Bullet, PointHead, PointTail, BenefitHead, Dot, MistakeHead, GoldenTip);
  }

  /** The template's text regrouped section by section, whatever its phrases. */
  lemma TemplateRegrouped(t: string, cta: string, a1: string, a2: string, a3: string,
                          b1: string, b1s: string, b2: string, l: string, ls: string,
                          u: string, c1: string, c1s: string, c2: string, dot: string, c3: string, c4: string)
    ensures (ThemeHead + t + NewLine + NewLine)
      + ((TitlesHead
         + Num1 + a1 + t + NewLine
         + Num2 + a2 + t + NewLine
         + Num3 + a3 + t + NewLine + NewLine)
      + (ImagesHead
         + LetterA + b1 + t + b1s + NewLine
         + LetterB + b2 + t + NewLine + NewLine)
      + (LedeSection
         + l + t + ls + NewLine + NewLine)
      + (BodyHead
         + u + c1 + t + c1s + NewLine
         + u + c2 + t + dot + NewLine
         + u + c3 + t + dot + NewLine
         + u + c4 + NewLine + NewLine))
      + (CtaHead + cta)
      == Layout(t, [a1 + t, a2 + t, a3 + t], [b1 + t + b1s, b2 + t], l + t + ls,
                [u + c1 + t + c1s, u + c2 + t + dot, u + c3 + t + dot, u + c4], cta)
  {
    var x0 := TitlesHead + Num1;
    Assoc(x0, a1, t);
    var x1 := x0 + (a1 + t) + NewLine + Num2;
    Assoc(x1, a2, t);
    var x2 := x1 + (a2 + t) + NewLine + Num3;
    Assoc(x2, a3, t);
    var y0 := ImagesHead + LetterA;
    Assoc3(y0, b1, t, b1s);
    var y1 := y0 + (b1 + t + b1s) + NewLine + LetterB;
    Assoc(y1, b2, t);
    var z0 := LedeSection;
    Assoc3(z0, l, t, ls);
    var w0 := BodyHead;
    Assoc4(w0, u, c1, t, c1s);
    var w1 := w0 + (u + c1 + t + c1s) + NewLine;
    Assoc4(w1, u, c2, t, dot);
    var w2 := w1 + (u + c2 + t + dot) + NewLine;
    Assoc4(w2, u, c3, t, dot);
    var w3 := w2 + (u + c3 + t + dot) + NewLine;
    Assoc(w3, u, c4);
    Assoc4(ThemeHead + t + NewLine + NewLine,
      x2 + (a3 + t) + NewLine + NewLine,
      y1 + (b2 + t) + NewLine + NewLine,
      z0 + (l + t + ls) + NewLine + NewLine,
      w3 + (u + c4) + NewLine + NewLine);
  }

  lemma Assoc(x: string, a: string, b: string)
    ensures x + a + b == x + (a + b)
  {
  }

  lemma Assoc3(x: string, a: string, b: string, c: string)
    ensures x + a + b + c == x + (a + b + c)
  {
  }

  lemma Assoc4(x: string, a: string, b: string, c: string, d: string)
    ensures x + a + b + c + d == x + (a + b + c + d)
  {
  }

  /** `full_text` opens with `TEMA: <theme>` and closes with `CTA:` and the
      call-to-action text on the last line. */
  lemma FullTextEnds(f: Fields)
    ensures var m := MockResponse(f);
      && ThemeHead + Show(f.theme) <= m.full_text
      && |m.full_text| >= |CtaHead + m.cta.text|
      && m.full_text[|m.full_text| - |CtaHead + m.cta.text|..] == CtaHead + m.cta.text
  {
    var t := Show(f.theme);
    var cta := Or(f.cta_text, DefaultCtaText);
    Ends(ThemeHead + t, NewLine + NewLine, TemplateMiddle(t), CtaHead + cta);
    assert ThemeHead + t + NewLine + NewLine == (ThemeHead + t) + (NewLine + NewLine);
  }

  lemma Ends(h: string, sep: string, mid: string, tail: string)
    ensures h <= (h + sep) + mid + tail
    ensures ((h + sep) + mid + tail)[|(h + sep) + mid + tail| - |tail|..] == tail
  {
    assert (h + sep) + mid + tail == h + (sep + mid + tail);
  }

  /** `full_text` depends on the theme and the call-to-action text only: the
      context, audience, tone and link, and so the highlights and tags,
      leave it unchanged. */
  lemma FullTextIgnoresOtherFields(f: Fields, g: Fields)
    requires f.theme == g.theme && Or(f.cta_text, DefaultCtaText) == Or(g.cta_text, DefaultCtaText)
    ensures MockResponse(f).full_text == MockResponse(g).full_text
  {
  }

  /** The forward call: the agent answered with a status and a body that
      parses as JSON (`Some`) or does not (`None`), or the call failed. */
  datatype Forward = Answered(status: nat, data: Option<string>) | Unreachable

  /** The request body parses (`Body`) or reading it throws. */
  datatype Request = Malformed | Body(fields: Fields)

  datatype Reply =
    | PassThrough(data: string)
    | MockReply(mock: Mock)
    | Error(status: nat, message: string)

  /** What the route answers, and the body it forwarded to the agent, if any. */
  datatype Answer = Answer(reply: Reply, forwarded: Option<Fields>)

  /** The `POST` handler; `agent` is what the forward call gives. */
  function Post(req: Request, url: Option<string>, agent: Forward): (a: Answer)
    ensures a.forwarded.Some? <==> req.Body? && Truthy(url)
    ensures a.reply.MockReply? <==> a.forwarded.None? && req.Body?
  {
    match req
    case Malformed => Answer(Error(500, ServerError), None)
    case Body(f) =>
      if Truthy(url) then
        match agent
        case Answered(status, data) =>
          if 200 <= status <= 299 && data.Some? then Answer(PassThrough(data.value), Some(f))
          else Answer(Error(502, AgentError), Some(f))
        case Unreachable => Answer(Error(502, AgentError), Some(f))
      else Answer(MockReply(MockResponse(f)), None)
  }

  /** With an agent configured the request body is forwarded unchanged and
      no mock is built: the agent's JSON goes back as is, and a non-ok
      status, an unparsable answer or a failed call all give a 502. Without
      one nothing is forwarded and the answer is the mock. A body that
      cannot be read gives a 500 and nothing is forwarded. */
  lemma PostCases(req: Request, url: Option<string>, agent: Forward)
    ensures var a := Post(req, url, agent);
      && (req.Malformed? ==> a == Answer(Error(500, ServerError), None))
      && (req.Body? && !Truthy(url) ==> a == Answer(MockReply(MockResponse(req.fields)), None))
      && (req.Body? && Truthy(url) ==>
            && a.forwarded == Some(req.fields)
            && !a.reply.MockReply?
            && (a.reply.PassThrough? <==>
                  agent.Answered? && 200 <= agent.status <= 299 && agent.data.Some?)
            && (a.reply.PassThrough? ==> a.reply.data == agent.data.value)
            && (!a.reply.PassThrough? ==> a.reply == Error(502, AgentError)))
  {
  }
}
