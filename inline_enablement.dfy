/** org.thymeleaf.standard.processor.StandardInlineEnablementDocumentProcessor:
    at document start, install the inliner that belongs to the template mode. */
module InlineEnablement {
  import opened Results

  /** The template modes.  RAW is the one mode the processor does not know. */
  datatype TemplateMode = HTML | XML | TEXT | JAVASCRIPT | CSS | RAW

  /** The name of a mode as it appears in messages. */
  function ModeName(mode: TemplateMode): string {
    match mode
    case HTML => "HTML"
    case XML => "XML"
    case TEXT => "TEXT"
    case JAVASCRIPT => "JAVASCRIPT"
    case CSS => "CSS"
    case RAW => "RAW"
  }

  /** The single instances of the standard inliners, as distinct tokens. */
  datatype Inliner =
    | StandardHTMLInliner
    | StandardXMLInliner
    | StandardTextInliner
    | StandardJavaScriptInliner
    | StandardCSSInliner

  /** A structural request a processor leaves on the structure handler.  This
      processor only ever issues the first kind. */
  datatype StructureRequest = SetInliner(inliner: Inliner) | RemoveNode | ReplaceWithText(text: string)

  const PRECEDENCE: int := 10

  function UnrecognizedMode(mode: TemplateMode): Failure {
    TemplateProcessing("Unrecognized template mode: " + ModeName(mode) + ", cannot initialize inlining!")
  }

  /** The switch of doProcessDocumentStart: each known mode selects its own
      inliner; any other mode fails. */
  function InlinerFor(mode: TemplateMode): (r: Result<Inliner>)
    ensures r.Err? <==> mode == RAW
    ensures r.Err? ==> r.failure == UnrecognizedMode(mode)
    ensures mode == HTML ==> r == Ok(StandardHTMLInliner)
    ensures mode == XML ==> r == Ok(StandardXMLInliner)
    ensures mode == TEXT ==> r == Ok(StandardTextInliner)
    ensures mode == JAVASCRIPT ==> r == Ok(StandardJavaScriptInliner)
    ensures mode == CSS ==> r == Ok(StandardCSSInliner)
  {
    match mode
    case HTML => Ok(StandardHTMLInliner)
    case XML => Ok(StandardXMLInliner)
    case TEXT => Ok(StandardTextInliner)
    case JAVASCRIPT => Ok(StandardJavaScriptInliner)
    case CSS => Ok(StandardCSSInliner)
    case RAW => Err(UnrecognizedMode(mode))
  }

  /** The mode each inliner belongs to. */
  function ModeOf(inliner: Inliner): (mode: TemplateMode)
    ensures mode != RAW
  {
    match inliner
    case StandardHTMLInliner => HTML
    case StandardXMLInliner => XML
    case StandardTextInliner => TEXT
    case StandardJavaScriptInliner => JAVASCRIPT
    case StandardCSSInliner => CSS
  }

  /** Every inliner is selected, by its own mode, and a selected inliner
      leads back to the mode that selected it. */
  lemma InlinerForInverse(inliner: Inliner, mode: TemplateMode)
    ensures InlinerFor(ModeOf(inliner)) == Ok(inliner)
    ensures InlinerFor(mode).Ok? ==> ModeOf(InlinerFor(mode).value) == mode
  {
  }

  /** Distinct modes never share an inliner. */
  lemma InlinerForInjective(mode1: TemplateMode, mode2: TemplateMode)
    requires InlinerFor(mode1).Ok? && InlinerFor(mode1) == InlinerFor(mode2)
    ensures mode1 == mode2
  {
    InlinerForInverse(InlinerFor(mode1).value, mode1);
    InlinerForInverse(InlinerFor(mode2).value, mode2);
  }

  /** The structure handler of the event being processed: the requests left
      on it, in the order they were made. */
  class DocumentStructureHandler {
    var requests: seq<StructureRequest>

    constructor ()
      ensures requests == []
    {
      requests := [];
    }

    method SetInliner(inliner: Inliner)
      modifies this
      ensures requests == old(requests) + [StructureRequest.SetInliner(inliner)]
    {
      requests := requests + [StructureRequest.SetInliner(inliner)];
    }
  }

  class StandardInlineEnablementDocumentProcessor {
    const templateMode: TemplateMode
    const precedence: int

    constructor (templateMode: TemplateMode)
      ensures this.templateMode == templateMode && precedence == PRECEDENCE
    {
      this.templateMode := templateMode;
      precedence := PRECEDENCE;
    }

    /** Exactly one SetInliner request for a known mode; for any other mode,
        the failure and no request. */
    method DoProcessDocumentStart(structureHandler: DocumentStructureHandler) returns (o: Outcome)
      modifies structureHandler
      ensures InlinerFor(templateMode).Ok? ==>
        o == Done && structureHandler.requests == old(structureHandler.requests) + [StructureRequest.SetInliner(InlinerFor(templateMode).value)]
      ensures InlinerFor(templateMode).Err? ==>
        o == Fail(UnrecognizedMode(templateMode)) && structureHandler.requests == old(structureHandler.requests)
    {
      match templateMode
      case HTML =>
        structureHandler.SetInliner(StandardHTMLInliner);
        o := Done;
      case XML =>
        structureHandler.SetInliner(StandardXMLInliner);
        o := Done;
      case TEXT =>
        structureHandler.SetInliner(StandardTextInliner);
        o := Done;
      case JAVASCRIPT =>
        structureHandler.SetInliner(StandardJavaScriptInliner);
        o := Done;
      case CSS =>
        structureHandler.SetInliner(StandardCSSInliner);
        o := Done;
      case RAW =>
        o := Fail(UnrecognizedMode(templateMode));
    }

    /** Nothing happens at document end: it cannot fail and, touching no
        object, leaves every structure handler as it was. */
    method DoProcessDocumentEnd(structureHandler: DocumentStructureHandler) returns (o: Outcome)
      ensures o == Done
    {
      o := Done;
    }
  }
}
