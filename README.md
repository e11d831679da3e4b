# Thymeleaf engine pieces, modelled in Dafny

This project models four small parts of the Thymeleaf template engine and
proves what they promise:

- **DelayedGatheredModel** (`delayed_gathered_model.dfy`, module `Engine`):
  a gathered sub-tree of events whose replay is deferred. It may be
  replayed at most once. A successful replay delivers the gathered events to
  the handler in order and closes the one context level that was opened
  when gathering began. A second replay fails with "already been processed"
  and touches nothing. The engine context is a class with a `level`
  counter. The handler is a class that records the events it accepts; its
  `fault` function says on which events it throws instead.
- **TemplateProcessingException** (`template_processing_exception.dfy`,
  module `Exceptions`): the optional template name, line and column of a
  failure. Negative numbers mean "unknown". The message suffix they render
  to is ` ("name": line L, col C)`. The proofs cover every combination of
  known fields and two sample renderings. They also show that, for a
  given base message and name, the rendered message determines the line and
  column. That proof uses a decimal rendering of integers (`Decimal`) with a
  parse round trip.
- **ClassLoaderTemplateResource** (`class_loader_template_resource.dfy`,
  module `TemplateResource`): the constructor removes one leading '/'.
  `createRelativePath` resolves a path against the directory part of the
  current path. `relative` builds the new resource from that path.
- **StandardInlineEnablementDocumentProcessor** (`inline_enablement.dfy`,
  module `InlineEnablement`): at document start, each of the five template
  modes installs its own inliner through one `SetInliner` request. Any other
  mode fails at once. Document end does nothing.

`results.dfy` holds the shared `Option`, `Result`, `Outcome` and `Failure`
types. An operation that throws in the engine returns a failure here
instead.

Points where the model takes a position:

- The line and column are stored for any non-negative number, zero
  included, as the code does, although positions are normally 1-based.
- With a template name and a column but no line, the code renders
  ` ("name": , col C)`. The model keeps that output.
- `IEngineContext` is not part of this model. Closing the root level is
  modelled as a `LevelUnderflow` failure that changes nothing, since it is a
  programming error. `Process` then passes the failure on
  with the flag still unset, because the flag is set only after
  `decreaseLevel` returns. The events have already been delivered by then,
  so a later call would replay them again.
- The mode enumeration is not part of this model. Besides the five modes
  with an inliner it is modelled with `RAW`, the mode that reaches the
  `default` branch; any further constant would behave exactly like `RAW`.

## Model

| member | source | states |
|---|---|---|
| `Engine.EngineContext.IncreaseLevel` | src/main/java/org/thymeleaf/engine/DelayedGatheredModel.java:76-78 | opening a level (done when gathering starts) raises the level by one |
| `Engine.EngineContext.DecreaseLevel` | src/main/java/org/thymeleaf/engine/DelayedGatheredModel.java:79 | closing a level lowers it by one; at the root it fails and changes nothing |
| `Engine.TemplateHandler.HandleEvent` | src/main/java/org/thymeleaf/engine/DelayedGatheredModel.java:72 | the handler either accepts an event, appending it to what it has handled, or throws its failure and records nothing; either way the context level is as it found it |
| `Engine.FirstFault` | src/main/java/org/thymeleaf/engine/DelayedGatheredModel.java:72 | the number of events delivered before the first one the handler throws on: every earlier event is accepted, the one at that index is not |
| `Engine.ReplayGathered` | src/main/java/org/thymeleaf/engine/DelayedGatheredModel.java:72 | replay delivers the gathered events in order up to the first failure, passes that failure on, and succeeds exactly when every event was accepted; the context level is unchanged by the replay |
| `Engine.DelayedGatheredModel.constructor` | src/main/java/org/thymeleaf/engine/DelayedGatheredModel.java:43-47 | a new model keeps its context and events and is unprocessed, with no completed replay |
| `Engine.DelayedGatheredModel.IsProcessed` | src/main/java/org/thymeleaf/engine/DelayedGatheredModel.java:50-52 | returns the current one-shot flag, which the constructor leaves unset and only a completed `Process` sets |
| `Engine.DelayedGatheredModel.Process` | src/main/java/org/thymeleaf/engine/DelayedGatheredModel.java:58-87 | when already processed: the "already been processed" failure, with no event delivered and the level unchanged; otherwise the events are replayed in order, and only after a full replay is the level lowered by exactly one and the flag set; a failed replay or level decrease leaves the flag unset, so once the flag is set every later call fails without effect |
| `Engine.GatherAndReplayTwice` | src/main/java/org/thymeleaf/engine/DelayedGatheredModel.java:63-85 | opening a level, gathering and replaying: a successful replay restores the level to its value before gathering, delivers every event once, and a second replay fails |
| `Decimal.NatToString` | src/main/java/org/thymeleaf/exceptions/TemplateProcessingException.java:150-157 | the numeral appended for a line or column is non-empty, all digits, without a leading zero |
| `Decimal.ParseNatToString` | src/main/java/org/thymeleaf/exceptions/TemplateProcessingException.java:150-157 | reading the numeral back gives the number |
| `Decimal.NatToStringInjective` | src/main/java/org/thymeleaf/exceptions/TemplateProcessingException.java:150-157 | distinct numbers give distinct numerals |
| `Exceptions.Normalized` | src/main/java/org/thymeleaf/exceptions/TemplateProcessingException.java:77-78 | a negative line or column is stored as absent, any other as given |
| `Exceptions.TemplateProcessingException.constructor` | src/main/java/org/thymeleaf/exceptions/TemplateProcessingException.java:45-47 | message only: no cause, name, line or column |
| `Exceptions.TemplateProcessingException.WithCause` | src/main/java/org/thymeleaf/exceptions/TemplateProcessingException.java:49-51 | message and cause: no name, line or column |
| `Exceptions.TemplateProcessingException.WithTemplateName` | src/main/java/org/thymeleaf/exceptions/TemplateProcessingException.java:53-59 | the given name is kept; line and column absent |
| `Exceptions.TemplateProcessingException.WithTemplateNameAndCause` | src/main/java/org/thymeleaf/exceptions/TemplateProcessingException.java:61-67 | name and cause kept; line and column absent |
| `Exceptions.TemplateProcessingException.WithLocation` | src/main/java/org/thymeleaf/exceptions/TemplateProcessingException.java:73-79 | name kept; line and column normalised, negative meaning absent |
| `Exceptions.TemplateProcessingException.WithLocationAndCause` | src/main/java/org/thymeleaf/exceptions/TemplateProcessingException.java:85-91 | as WithLocation, and the cause is kept |
| `Exceptions.TemplateProcessingException.GetTemplateName` | src/main/java/org/thymeleaf/exceptions/TemplateProcessingException.java:96-98 | returns the stored template name, absent when none was given |
| `Exceptions.TemplateProcessingException.GetLine` | src/main/java/org/thymeleaf/exceptions/TemplateProcessingException.java:104-106 | returns the stored line, absent when unknown |
| `Exceptions.TemplateProcessingException.GetCol` | src/main/java/org/thymeleaf/exceptions/TemplateProcessingException.java:108-110 | returns the stored column, absent when unknown |
| `Exceptions.TemplateProcessingException.HasTemplateName` | src/main/java/org/thymeleaf/exceptions/TemplateProcessingException.java:100-102 | true exactly when a template name is present |
| `Exceptions.TemplateProcessingException.HasLine` | src/main/java/org/thymeleaf/exceptions/TemplateProcessingException.java:112-114 | true exactly when a line is present |
| `Exceptions.TemplateProcessingException.HasCol` | src/main/java/org/thymeleaf/exceptions/TemplateProcessingException.java:116-118 | true exactly when a column is present |
| `Exceptions.TemplateProcessingException.SetTemplateName` | src/main/java/org/thymeleaf/exceptions/TemplateProcessingException.java:120-122 | sets the name; line and column unchanged |
| `Exceptions.TemplateProcessingException.SetLine` | src/main/java/org/thymeleaf/exceptions/TemplateProcessingException.java:124-126 | a negative argument clears the line, any other sets it; name and column unchanged |
| `Exceptions.TemplateProcessingException.SetCol` | src/main/java/org/thymeleaf/exceptions/TemplateProcessingException.java:128-130 | a negative argument clears the column, any other sets it; name and line unchanged |
| `Exceptions.TemplateProcessingException.GetMessage` | src/main/java/org/thymeleaf/exceptions/TemplateProcessingException.java:135-164 | the message is the rendering of the current base message, name, line and column |
| `Exceptions.LocationSuffix` | src/main/java/org/thymeleaf/exceptions/TemplateProcessingException.java:142-160 | the suffix is empty exactly when there is no template name, and otherwise ends with the closing parenthesis |
| `Exceptions.RenderMessage` | src/main/java/org/thymeleaf/exceptions/TemplateProcessingException.java:140-142 | the message always starts with the unchanged base message, and without a template name it is exactly the base message whatever line and column hold |
| `Exceptions.SuffixWithNameOnly` | src/main/java/org/thymeleaf/exceptions/TemplateProcessingException.java:142-159 | a name with no line or column adds ` ("name")` |
| `Exceptions.SuffixWithLine` | src/main/java/org/thymeleaf/exceptions/TemplateProcessingException.java:148-159 | a name and a line add ` ("name": line L` then `, col C` if the column is known, then `)` |
| `Exceptions.SuffixWithColumnOnly` | src/main/java/org/thymeleaf/exceptions/TemplateProcessingException.java:148-159 | a name and a column without a line add ` ("name": , col C)` |
| `Exceptions.SampleRenderings` | src/main/java/org/thymeleaf/exceptions/TemplateProcessingException.java:142-159 | name "t.html", line 4, column 10 renders ` ("t.html": line 4, col 10)`; without the column, ` ("t.html": line 4)` |
| `Exceptions.ColumnPartInjective` | src/main/java/org/thymeleaf/exceptions/TemplateProcessingException.java:154-157 | the column part determines the column |
| `Exceptions.LineAndColumnInjective` | src/main/java/org/thymeleaf/exceptions/TemplateProcessingException.java:150-157 | the line part followed by the column part determines both |
| `Exceptions.LocationClauseInjective` | src/main/java/org/thymeleaf/exceptions/TemplateProcessingException.java:148-158 | distinct line/column combinations render distinct clauses |
| `Exceptions.RenderedLocationDetermined` | src/main/java/org/thymeleaf/exceptions/TemplateProcessingException.java:138-162 | for a given base message and name, the message determines the reported line and column |
| `TemplateResource.LastIndexOf` | src/main/java/org/thymeleaf/templateresource/ClassLoaderTemplateResource.java:108 | -1 exactly when the character is absent, otherwise the position of its last occurrence |
| `TemplateResource.StripLeadingSlash` | src/main/java/org/thymeleaf/templateresource/ClassLoaderTemplateResource.java:55 | one leading '/' is removed when present, otherwise the path is kept |
| `TemplateResource.Create` | src/main/java/org/thymeleaf/templateresource/ClassLoaderTemplateResource.java:46-58 | an empty path is rejected; otherwise class loader and encoding are kept and the path is stored without its leading '/' |
| `TemplateResource.GetName` | src/main/java/org/thymeleaf/templateresource/ClassLoaderTemplateResource.java:63-65 | the name is the stored path, unchanged |
| `TemplateResource.NameIsNormalisedPath` | src/main/java/org/thymeleaf/templateresource/ClassLoaderTemplateResource.java:55-65 | the name of a created resource is its path with exactly one leading '/' removed if there was one |
| `TemplateResource.CreateRelativePath` | src/main/java/org/thymeleaf/templateresource/ClassLoaderTemplateResource.java:107-119 | without a '/' in the base the relative path is returned unchanged; the result always ends with the relative path |
| `TemplateResource.LastSeparator` | src/main/java/org/thymeleaf/templateresource/ClassLoaderTemplateResource.java:108 | in directory + "/" + file, with no '/' in the file name, the last '/' is the one after the directory |
| `TemplateResource.CreateRelativePathInDirectory` | src/main/java/org/thymeleaf/templateresource/ClassLoaderTemplateResource.java:108-116 | against directory + "/" + file, the result is the directory, one '/', and the relative path less its own leading '/' |
| `TemplateResource.LeadingSlashIgnored` | src/main/java/org/thymeleaf/templateresource/ClassLoaderTemplateResource.java:111-115 | with a '/' in the base, prefixing the relative path with '/' gives the same result |
| `TemplateResource.SiblingResolution` | src/main/java/org/thymeleaf/templateresource/ClassLoaderTemplateResource.java:107-119 | resolving against a sibling file name gives the same result as resolving against the original path |
| `TemplateResource.Relative` | src/main/java/org/thymeleaf/templateresource/ClassLoaderTemplateResource.java:88-95 | an empty relative path is rejected; otherwise the new resource has the same class loader and encoding and is named by the resolved path without its leading '/' |
| `InlineEnablement.InlinerFor` | src/main/java/org/thymeleaf/standard/processor/StandardInlineEnablementDocumentProcessor.java:56-77 | HTML, XML, TEXT, JAVASCRIPT and CSS select their own inliner; any other mode fails with "Unrecognized template mode: ..., cannot initialize inlining!" |
| `InlineEnablement.ModeOf` | src/main/java/org/thymeleaf/standard/processor/StandardInlineEnablementDocumentProcessor.java:58-72 | every inliner belongs to one of the five known modes |
| `InlineEnablement.InlinerForInverse` | src/main/java/org/thymeleaf/standard/processor/StandardInlineEnablementDocumentProcessor.java:58-72 | every inliner is selected by its mode, and a selected inliner leads back to the mode that selected it |
| `InlineEnablement.InlinerForInjective` | src/main/java/org/thymeleaf/standard/processor/StandardInlineEnablementDocumentProcessor.java:58-72 | distinct modes never get the same inliner |
| `InlineEnablement.DocumentStructureHandler.SetInliner` | src/main/java/org/thymeleaf/standard/processor/StandardInlineEnablementDocumentProcessor.java:59 | a SetInliner request is appended to the handler's requests |
| `InlineEnablement.StandardInlineEnablementDocumentProcessor.constructor` | src/main/java/org/thymeleaf/standard/processor/StandardInlineEnablementDocumentProcessor.java:44-48 | the processor keeps its mode and has precedence 10 |
| `InlineEnablement.StandardInlineEnablementDocumentProcessor.DoProcessDocumentStart` | src/main/java/org/thymeleaf/standard/processor/StandardInlineEnablementDocumentProcessor.java:52-79 | a known mode issues exactly one request, SetInliner with its inliner; any other mode fails and issues none |
| `InlineEnablement.StandardInlineEnablementDocumentProcessor.DoProcessDocumentEnd` | src/main/java/org/thymeleaf/standard/processor/StandardInlineEnablementDocumentProcessor.java:83-88 | document end cannot fail and changes no object |

## Left out

- Engine configuration, passed to the gathered model's super-constructor: it plays no part in the flag or the level.
- The body of the gathered-model replay (`AbstractGatheredModel` is not part of this model): it is modelled as "deliver this fixed event sequence, in order, to the handler, stopping at the first failure".
- `IEngineContext` (not part of this model): only its level counter is modelled, not the variables of each level.
- A handler that throws part-way through handling one event: a handler here either accepts an event whole or throws without recording it.
- `ClassLoaderTemplateResource.reader()` and `exists()`: class-loader lookup and stream decoding are I/O.
- Null arguments: a null class loader, path, relative path or template mode, and a null base message rendered as "null". Dafny values cannot be null; absent names and causes use `Option`.
- Java `int` range for lines and columns: the model uses unbounded integers. No arithmetic is done on them, so only the sign matters.
- `URLTemplateResource`, `ClassLoaderTemplateResolver`, `JakartaServletWebExchange` and `IContext`: network and file I/O, thin factories and servlet adapters without logic of their own.
- Discarding a delayed model: the engine has no such operation, so a model that is never replayed leaves its context level open. The model has no discard operation either.
- The inliners themselves and the base exception class: opaque tokens and an opaque base message.
- Engine.TemplateHandler.HandleEvent: the handler is required to leave the context level as it found it (it may open and close levels in balance) and cannot reach any delayed model. In the engine a handler that leaves levels open or closes extra ones would shift the level that `process` then lowers, and a handler that re-enters `process` on the same model before the flag is set (DelayedGatheredModel.java:85) would replay its events and lower the level a second time; the model captures neither.
- TemplateResource.CreateRelativePath: its requires excludes an empty relative path when the base path contains '/'. There the code reads `relativePath.charAt(0)` (ClassLoaderTemplateResource.java:112) and throws `StringIndexOutOfBoundsException`. The only caller, `relative`, rejects an empty relative path first (line 90), so `Relative` models that case with its `IllegalArgument` failure instead.
