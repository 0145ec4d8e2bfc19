# Verified models of the chat, grammar, conversion and provisioning code

Each module models one piece of the repository in the form the code has: functions and lemmas where the
code computes values, classes, arrays and loops where it updates state. A method that follows an
imperative piece of code is proved against a specification function or predicate, and the promises of
that code are proved as lemmas about the specification.

**Streaming chat parser.** `TextSearch`, `ChatParser`, `Streaming`, `Session` and `Transcript` model the
message parser that runs again on every longer prefix of a model's output. The main results: a partial
parse never takes back reasoning text, and takes back content exactly when leading whitespace is followed
by the beginning of a start tag; the differences the server computes are therefore always valid, and a
client that only appends them holds the message of the whole text after any sequence of chunks; and a
transcript of think sections is taken apart into exactly those sections, in every syntax. `TrimSuffix` does the same for
the suffix trimming of the XML-style parser, and `JsonArguments` models the mapper that assembles the
JSON text of a tool call event by event.

**Grammar compilation.** `Grammar` gives regular expressions a language, `Excluding` compiles forbidden
strings through a trie over a sorted list, and `ToolRules` builds the argument and call rules. Both
generated languages are characterised exactly. The comment at chat-parser-xml-toolcall.cpp:81-83 promises
a grammar for all texts that contain no forbidden string. The code does not give that:
`ExcludingClaims` shows a text with `</p>` in it that is accepted and a text without it that is refused,
and proves that the promise is kept exactly when every forbidden string is a single character.

**Low-rank tensors.** `Tensors`, `Lora`, `LoraPermuting`, `LoraIndexing` and `LoraJoining` define the dense
product B.A with broadcasting and prove which operations on the factors commute with it: reshape,
permute, transpose, indexing by tuples and by a bare index, stack and cat. Where an operation does not
commute for all inputs, the exact condition is proved (for cat, among parts none of which broadcasts A
over no row at all), with an input on which it fails.

**Codecs.** `Base64` (encoding, decoding, decoding in place), `Gguf` (the metadata reader as a class over a
file cursor), `LegacyScan` and `LegacyRoundTrip` (the GGML, GGMF and GGJT scanner), `Escapes` (escape
processing in place) and `Utf8` (truncation at a character boundary). The scanner computes tensor lengths
in 64-bit arithmetic and follows them wherever they lead: `NeverDone` builds a file whose loading never
ends, `EndsIff` and `ForwardEnds` say when it does, and `RangesInOrderIff` gives the exact guard on the
headers for the ranges to be in order, as they are in every file that is laid out properly.

**Provisioning.** `ModelMatcher` and `ContextSizing` follow the memory from the host to the served context.
A comment at manage.py:1446-1447 says the cache pool is main memory unless the model is fully
offloaded; the code uses the larger of the two budgets, and `PoolIsMainMemoryIff` gives the exact
condition under which the two agree, `PoolBeyondMainMemory` a host on which they do not. `WireConfig` models the config rewrite on lists of lines.

**State machines.** `Supervision` models the supervisor as all interleavings of its coroutines' segments with
`stop`, `HermesBridge` models bridge cycles against arbitrary answers and exceptions of the command line, and
`NgramCache` models the hash cache against the history of its adds.

What a claim assumes about its environment is a parameter: clocks, process exits, command-line answers
and file contents are arbitrary values.

## Model

| member | source | states |
|---|---|---|
| TextSearch.FindPartialStop | llama_cpp/common/common.h:708-721 | The result is the start of the longest suffix of the text that is a non-empty prefix of the stop string, or none if there is no such suffix. |
| TextSearch.OccurrenceNeedsOverlap | llama_cpp/common/common.h:708-721 | If the literal does not occur in a text, then on every extension it can only begin inside the text where the text overlaps it. |
| TextSearch.StringStrip | llama_cpp/common/common.cpp:410-420 | Both whitespace loops compute the stripped text. |
| TextSearch.StripIsTheTrimmedMiddle | llama_cpp/common/common.cpp:410-420 | The stripped text is the only middle part surrounded by whitespace that neither begins nor ends with whitespace. |
| ChatParser.ChatMsgParser.AddContent | llama_cpp/common/chat-parser.cpp:151-153 | Content is appended and nothing else changes. |
| ChatParser.ChatMsgParser.ConsumeSpaces | llama_cpp/common/chat-parser.cpp:232-240 | The cursor moves to the first position without whitespace, and the answer tells whether it moved. |
| ChatParser.ChatMsgParser.TryConsumeLiteral | llama_cpp/common/chat-parser.cpp:242-255 | The literal is consumed exactly when it stands at the cursor; otherwise nothing changes. |
| ChatParser.ChatMsgParser.TryFindLiteral | llama_cpp/common/chat-parser.cpp:257-279 | The found range, or on partial input the withheld overlap, with the prelude up to it, and the new cursor. |
| ChatParser.ChatMsgParser.HandleReasoning | llama_cpp/common/chat-parser.cpp:287-431 | One section goes to reasoning or, wrapped in its tags, to content, and the pending prefix is used up. |
| ChatParser.ChatMsgParser.TryParseReasoning | llama_cpp/common/chat-parser.cpp:287-431 | The cursor loop with saved and restored state has the outcome of the recursive description, for every syntax. |
| ChatParser.ChatMsgParser.ParseContentOnly | llama_cpp/common/chat-parser.cpp:1501-1504 | The message of the whole text: reasoning first, everything behind it content. |
| Streaming.LiteralFoundIsExact | llama_cpp/common/chat-parser.cpp:257-279 | A literal reported on partial input starts no earlier on any extension, and on some extension it starts exactly there. |
| Streaming.NothingFoundIsFinalIff | llama_cpp/common/chat-parser.cpp:257-279 | Finding nothing on partial input is final for the part already seen if and only if the text behind the cursor has no overlap with the literal. |
| Streaming.NothingFoundMayBeEarly | llama_cpp/common/chat-parser.cpp:257-279 | A concrete text on which nothing is withheld although the literal can still begin inside it, because the longest overlap lies before the cursor. |
| Streaming.BlocksExtend | llama_cpp/common/chat-parser.cpp:287-431 | From the same position in the loop, the message of a prefix is extended by the message of every longer text, over any number of think blocks. |
| Streaming.NeverRetracts | llama_cpp/common/chat-parser.cpp:287-431 | For all tags, syntaxes and texts, the reasoning of a partial parse is a prefix of that of every later parse, and the content is too if and only if no reported leading whitespace is taken back by a start tag that begins behind it. |
| Session.DiffsReach | llama_cpp/common/chat.cpp:136-183 | Differences against a message that is extended are valid and bring the receiver to the new message. |
| Session.TaskResultState.UpdateChatMsg | llama_cpp/tools/server/server-task.cpp:157-174 | The kept message and the differences after a chunk, where an empty parse keeps the old message and sends nothing. |
| Session.RunDeliversMessage | llama_cpp/tools/server/server-task.cpp:157-174 | Over any sequence of chunks no difference is invalid, and a client that only appends what it is sent holds the last non-empty message of the text so far. |
| Transcript.TranscriptParses | llama_cpp/common/chat-parser.cpp:287-431 | With a reasoning format set, leading whitespace, any number of closed think sections that each begin with the start tag, and an answer are parsed, partial or not, into the stripped sections and the whitespace with the answer; with reasoning in content the sections stand there between their tags, and with thinking forced open each keeps its start tag in front. Only a text without sections must not be forced open. |
| Transcript.ForcedTranscriptParses | llama_cpp/common/chat-parser.cpp:287-431 | With thinking forced open, a text that begins inside the first section is parsed into that section without a start tag, the other sections and the answer; the leading whitespace is dropped. |
| TrimSuffix.Trim | llama_cpp/common/chat-parser-xml-toolcall.cpp:669-683 | The content is cut at the first position from where the rest of it begins one of the patterns, and nowhere if there is none. |
| TrimSuffix.TrimNeverRetracts | llama_cpp/common/chat-parser-xml-toolcall.cpp:669-683 | Trimmed content is a prefix of the trimmed content of every extension. |
| TrimSuffix.CutIsExact | llama_cpp/common/chat-parser-xml-toolcall.cpp:669-683 | A tag that runs past the end begins at or behind the cut, and a cut is only made where some continuation completes a tag. |
| JsonArguments.TrimTrailingSpace | llama_cpp/common/chat-peg-parser.cpp:7-17 | The text without the whitespace at its end. |
| JsonArguments.ConstructedMapper.Map | llama_cpp/common/chat-peg-parser.cpp:64-124 | Every field after one event: argument text, argument count, quote flag, calls, content and reasoning. |
| JsonArguments.ArgumentsGrow | llama_cpp/common/chat-peg-parser.cpp:64-124 | Behind the tool name, the argument text only grows, whatever events follow. |
| JsonArguments.OpenValueGrows | llama_cpp/common/chat-peg-parser.cpp:64-124 | When a later parse has more text in a value that was open, the argument text sent so far stays a prefix. |
| JsonArguments.FinishedCallIff | llama_cpp/common/chat-peg-parser.cpp:64-124 | The text of a finished call is the JSON object that lists each argument once and in order, strings closed, if and only if every string argument but the last got its closing tag. |
| JsonArguments.UnclosedExample | llama_cpp/common/chat-peg-parser.cpp:64-124 | A string without its closing tag in front of another argument: the finished text is not the object. |
| JsonArguments.FlagAlongRun | llama_cpp/common/chat-peg-parser.cpp:64-124 | When every string argument but the last got its closing tag and every other value is a complete JSON value, the quote flag after every prefix of the events of a call is set exactly when a JSON reader of the text is inside a string. |
| JsonArguments.FlagAlongRunIff | llama_cpp/common/chat-peg-parser.cpp:64-124 | The flag agrees with the reader after every prefix of the events if and only if every string argument but the last got its closing tag and every other value is a complete JSON value. |
| JsonArguments.PartialExample | llama_cpp/common/chat-peg-parser.cpp:64-124 | A value cut short inside a string, after which the flag and the reader disagree. |
| Excluding.SortStrings | llama_cpp/common/chat-parser-xml-toolcall.cpp:84-161 | The forbidden strings in order, each as often as before. |
| Excluding.ChildrenPartition | llama_cpp/common/chat-parser-xml-toolcall.cpp:98-130 | The ranges found in the sorted list split the strings with a common prefix exactly by their next character. |
| Excluding.BuildExpr | llama_cpp/common/chat-parser-xml-toolcall.cpp:98-150 | The recursive builder with its range-scanning loops yields the expression of the trie node. |
| Excluding.MakeGbnfExcluding | llama_cpp/common/chat-parser-xml-toolcall.cpp:84-161 | The expression generates exactly the texts on which the trie scanner, back at the root after each mismatch, completes no forbidden string and ends at the root, for any forbidden strings one of which is not empty. |
| ExcludingClaims.NothingForbiddenAtRoot | llama_cpp/common/chat-parser-xml-toolcall.cpp:84-161 | In an accepted text no forbidden string that is no proper prefix of another begins at a chunk boundary. |
| ExcludingClaims.KeptFromStartIff | llama_cpp/common/chat-parser-xml-toolcall.cpp:84-161 | No accepted text begins with a forbidden string, if and only if that string is not a proper prefix of another one. |
| ExcludingClaims.AsDocumentedIff | llama_cpp/common/chat-parser-xml-toolcall.cpp:81-84 | The documented language is generated if and only if every forbidden string is a single character. |
| ExcludingClaims.ClosingTagExample | llama_cpp/common/chat-parser-xml-toolcall.cpp:81-84 | With one closing tag forbidden, a text that contains it is accepted and a text without it is refused. |
| ToolRules.BuildChain | llama_cpp/common/chat-parser-xml-toolcall.cpp:246-257 | The loop over the parameters from the last to the first yields a rule for exactly the allowed argument lists. |
| ToolRules.ChainLanguage | llama_cpp/common/chat-parser-xml-toolcall.cpp:246-257 | The rules generate exactly the selections that keep the order and contain every required parameter, separated by the value end, closed by the last value end, and empty only when nothing is selected. |
| ToolRules.ArgumentsUnambiguous | llama_cpp/common/chat-parser-xml-toolcall.cpp:246-257 | Two different selections never give the same list. |
| ToolRules.RootLanguage | llama_cpp/common/chat-parser-xml-toolcall.cpp:259-292 | The root rule generates exactly an optional, separated and closed sequence of calls between the scope markers that are present. |
| ToolRules.RootWithoutTools | llama_cpp/common/chat-parser-xml-toolcall.cpp:259-292 | When no tool is usable, the root rule generates nothing, or ends of calls without any call, between the scope markers. |
| Lora.ReshapeCommutesIff | llama_cpp/convert_lora_to_gguf.py:131-155 | A reshape the factors admit is the reshape of the dense product if and only if the number of elements agrees, which a positive rank guarantees. |
| Lora.ReshapeAccepted | llama_cpp/convert_lora_to_gguf.py:131-155 | A reshape is accepted if and only if the new shape has two dimensions or more, keeps the columns and, unless the factors are empty, keeps the number of rows while the leading dimensions of A are one. |
| Lora.RankZeroReshape | llama_cpp/convert_lora_to_gguf.py:131-155 | With rank zero, a matrix of two rows is accepted as one of three, which the dense product is not. |
| LoraPermuting.PermuteCommutesIff | llama_cpp/convert_lora_to_gguf.py:163-174 | A permutation the low-rank tensor accepts permutes the dense product if and only if it names only dimensions the tensor has. |
| LoraPermuting.DimensionTooHigh | llama_cpp/convert_lora_to_gguf.py:163-174 | A permutation of a matrix that names dimension two is accepted by the low-rank tensor and not by the dense product. |
| LoraPermuting.TransposeCommutes | llama_cpp/convert_lora_to_gguf.py:176-183 | Exactly which exchanges of two dimensions are accepted, and that each of them exchanges the dimensions of the dense product. |
| LoraIndexing.TupleCommutesIff | llama_cpp/convert_lora_to_gguf.py:78-113 | Indexing by a tuple of integers and slices indexes the dense product if and only if rows and columns are sliced and every proper slice of a leading dimension meets a dimension of size one in A. |
| LoraIndexing.LeadingSliceExample | llama_cpp/convert_lora_to_gguf.py:78-113 | Slicing the first dimension of two matrices, where A has two of its own, is accepted and is not the slice of the dense product. |
| LoraIndexing.BareRowsCommute | llama_cpp/convert_lora_to_gguf.py:73-77 | Slicing the rows of a matrix slices B alone and is the slice of the dense product. |
| LoraIndexing.BareAccepted | llama_cpp/convert_lora_to_gguf.py:68-77 | A bare index is accepted if and only if it is in range of the first dimension of both factors, and on a matrix if it is a slice. |
| LoraIndexing.BareCommutesIff | llama_cpp/convert_lora_to_gguf.py:68-77 | An accepted bare index gives factors that broadcast and is the index of the dense product, if and only if the tensor is a matrix, the index is an integer, the first dimensions agree, or the slice takes one row of A or equally many of both. |
| LoraIndexing.BareExamples | llama_cpp/convert_lora_to_gguf.py:68-77 | Three rows over which A is broadcast: an integer that is refused and a slice whose factors no longer broadcast. |
| LoraJoining.StackCommutes | llama_cpp/convert_lora_to_gguf.py:200-206 | Stacking factors stacks the dense products. |
| LoraJoining.CatCommutes | llama_cpp/convert_lora_to_gguf.py:207-215 | Above two dimensions, joining both factors joins the dense products, where no part broadcasts A in the joined dimension or there is one row of A in all. |
| LoraJoining.CatBroadcastsIff | llama_cpp/convert_lora_to_gguf.py:207-215 | The joined factors broadcast if and only if there is one row of A in all or as many as of B. |
| LoraJoining.CatCommutesIff | llama_cpp/convert_lora_to_gguf.py:207-215 | Parts none of which broadcasts A over no row at all are joined into factors that broadcast and have the joined products, if and only if no part broadcasts A in the joined dimension or there is one row of A in all. |
| LoraJoining.JoinedTooShort | llama_cpp/convert_lora_to_gguf.py:207-215 | Two parts that broadcast A in the joined dimension are accepted, and the joined factors no longer broadcast. |
| LoraJoining.JoinedOverNothing | llama_cpp/convert_lora_to_gguf.py:207-215 | A part that broadcasts A over no row: the joined factors broadcast and have the wrong product. |
| LoraJoining.CatRowsCommutes | llama_cpp/convert_lora_to_gguf.py:216-222 | Matrices with equal A are joined by joining B. |
| Base64.Encode | llama_cpp/common/base64.hpp:80-144 | The encoding loop yields the encoding in the given alphabet, of the length `required_encode_size` announces. |
| Base64.EncodedStream | llama_cpp/common/base64.hpp:80-144 | Read as a stream of 6-bit digits, an encoding is the bits of the data followed by the zero bits of section 4 of RFC 4648. |
| Base64.Decode | llama_cpp/common/base64.hpp:200-244 | Result or error for every text, and never more bytes than `max_decode_size` announces. |
| Base64.DecodeInplace | llama_cpp/common/base64.hpp:294-322 | Decoding into the buffer that holds the text has the outcome and the bytes of decoding elsewhere, and leaves the rest of the buffer alone. |
| Base64.DecodedMeans | llama_cpp/common/base64.hpp:200-244 | Any text decodes exactly if its characters up to the padding are digits of one alphabet and only padding follows unless decoding is loose, and the result is the longest whole-byte prefix of the digits' bit stream. |
| Base64.RoundTrip | llama_cpp/common/base64.hpp:80-244 | An encoding in either alphabet of sections 4 and 5 of RFC 4648 decodes to the original bytes, with the alphabet known or detected, whatever the padding behavior. |
| Gguf.Reader.ReadValue | scripts/provision_fetch.py:69-79 | The recursive reader returns the parsed value and stops behind it, or reports the parser's error; it ends because every level consumes bytes. |
| Gguf.Reader.ReadHeader | scripts/provision_fetch.py:82-98 | The dictionary of a whole header, or the parser's error. |
| Gguf.HeaderRoundTrip | scripts/provision_fetch.py:82-98 | From any file that begins with the layout of a header, arrays nested to any depth included, exactly the entries are recovered and exactly the bytes of the header consumed. |
| Gguf.DictionaryIsEntries | scripts/provision_fetch.py:82-98 | With distinct keys the dictionary holds each entry's value and nothing else. |
| Gguf.TruncatedHeaderRefused | scripts/provision_fetch.py:54-98 | Every strict prefix of a header is refused. |
| LegacyScan.LoadVocab | llama_cpp/convert_llama_ggml_to_gguf.py:84-98 | The item loop yields exactly the items and the end position, or the first error. |
| LegacyScan.LengthIsExactIff | llama_cpp/convert_llama_ggml_to_gguf.py:126-127 | The wrapping 64-bit length is the true one if and only if the product of dimensions and type size is below 2^63. |
| LegacyScan.LengthSignIff | llama_cpp/convert_llama_ggml_to_gguf.py:126-127 | The length is not negative if and only if that product is below 2^63 modulo 2^64. |
| LegacyScan.EndsIff | llama_cpp/convert_llama_ggml_to_gguf.py:189-194 | The scan loop ends if and only if it never comes back to an offset. |
| LegacyScan.EndsWithinIff | llama_cpp/convert_llama_ggml_to_gguf.py:189-194 | The scan loop ends if and only if it ends within two rounds for every byte and one more. |
| LegacyScan.StepsForwardIff | llama_cpp/convert_llama_ggml_to_gguf.py:110-131 | The offset behind a tensor is not in front of its data if and only if its header meets the guard: the product is below 2^63 modulo 2^64 and the data would end below 2^63. |
| LegacyScan.ForwardEnds | llama_cpp/convert_llama_ggml_to_gguf.py:189-194 | When every header the scan reads meets the guard, the scan ends after at most one round for every twelve bytes and one more. |
| LegacyScan.RangesInOrderIff | llama_cpp/convert_llama_ggml_to_gguf.py:110-131 | In an accepted file, the tensors' data ranges are in order and disjoint with at least twelve bytes in front of each, start at multiples of 32 in the padded format, and end where the scan ends, if and only if every header meets the guard. |
| LegacyScan.GgmlModel.LoadTensors | llama_cpp/convert_llama_ggml_to_gguf.py:189-194 | Where the scan ends, which `EndsIff` characterises, the loop yields the tensors of the rest of the file and the end offset, or the first error, and maps each name to its last tensor. |
| LegacyScan.GgmlModel.Load | llama_cpp/convert_llama_ggml_to_gguf.py:180-200 | Where loading ends, every field after it, the header included when an error follows it, and which fields stay unchanged after each error. |
| LegacyRoundTrip.ScanInvertsLayout | llama_cpp/convert_llama_ggml_to_gguf.py:145-200 | Loading any file laid out as GGML, GGMF or GGJT ends, recovers its header, hyperparameters, vocabulary and tensors, and stops at its last byte. |
| LegacyRoundTrip.TensorDataFound | llama_cpp/convert_llama_ggml_to_gguf.py:110-131 | The reported range of each tensor holds that tensor's bytes. |
| LegacyRoundTrip.LaidRangesInOrder | llama_cpp/convert_llama_ggml_to_gguf.py:110-131 | In every file that is laid out in one of the formats the reported ranges are in order, disjoint and, in the padded format, aligned, and end with the file. |
| LegacyRoundTrip.LengthCanWrap | llama_cpp/convert_llama_ggml_to_gguf.py:126-127 | Dimensions whose wrapped length is -64. |
| LegacyRoundTrip.BackToItself | llama_cpp/convert_llama_ggml_to_gguf.py:110-131 | A tensor with these dimensions and a name of forty bytes, anywhere in an unpadded file, is scanned back to its own offset. |
| LegacyRoundTrip.AcceptedOutOfOrder | llama_cpp/convert_llama_ggml_to_gguf.py:180-200 | A whole file that is accepted, feed-forward tensor included, with its ranges out of order: the second tensor lies inside the name of the first. |
| LegacyRoundTrip.NeverDone | llama_cpp/convert_llama_ggml_to_gguf.py:180-200 | A whole file whose loading passes the vocabulary and never ends. |
| Escapes.ProcessEscapes | llama_cpp/common/common.cpp:576-611 | Rewriting the buffer with two indices yields what a decoder that reads the original text once yields. |
| Escapes.UnescapeUndoesPrint | llama_cpp/common/common.cpp:576-611 | Decoding undoes printing, whichever two-character or hexadecimal form each character was printed in. |
| Escapes.PlainTextUnchanged | llama_cpp/common/common.cpp:576-611 | A text without a backslash stays as it is. |
| Utf8.TruncateSafe | llama_cpp/common/chat-parser-xml-toolcall.cpp:27-50 | The backward loop computes the safe length. |
| Utf8.SafeCutsAtBoundary | llama_cpp/common/chat-parser-xml-toolcall.cpp:27-50 | Whole characters in the sense of section 3 of RFC 3629 followed by a proper prefix of one more are cut exactly behind the whole ones. |
| Utf8.SafeOnPrefixes | llama_cpp/common/chat-parser-xml-toolcall.cpp:27-50 | Every prefix of valid text is cut at the last character boundary it reaches. |
| ModelMatcher.LargestFittingQuant | scripts/provision_match.py:61-72 | The first of the largest quants within budget and processor cap, or none exactly if none fits. |
| ModelMatcher.SortedHead | scripts/provision_match.py:99-100 | The stable descending sort puts the first of the maximal candidates in front. |
| ModelMatcher.Match | scripts/provision_match.py:75-126 | No pick exactly if nothing fits; otherwise the pick of a candidate that no other one ranks above and no earlier one ties with. |
| ModelMatcher.NothingBeatsThePick | scripts/provision_match.py:75-126 | No fitting quant of any model ranks above the pick by score, size and identifier. |
| ModelMatcher.PickFitsItsPool | scripts/provision_match.py:102-126 | The weights fit the pool they are counted against. |
| ModelMatcher.PoolIsMainMemoryIff | manage.py:1443-1460 | Without full offload the cache pool is the main-memory budget if and only if the host has a usable accelerator, shares its memory, or has no larger video budget. |
| ModelMatcher.PoolBeyondMainMemory | manage.py:1443-1460 | A host without a usable accelerator whose pick counts its cache against 8192 while the main-memory budget is zero. |
| ContextSizing.RawIsExact | scripts/provision_fetch.py:137-145 | The unclamped quotient is exactly the number of tokens whose cache fits. |
| ContextSizing.LargestStepThatFits | scripts/provision_fetch.py:137-145 | The context lies within its bounds, fits unless it is the smallest allowed one, and then fits if and only if that one does; it is at least every multiple of the step that fits within the bounds. |
| ContextSizing.ContextMonotone | scripts/provision_fetch.py:137-145 | More free memory never gives a smaller context and a larger cost per token never a larger one. |
| ContextSizing.ResolvedNeverExceedsIff | scripts/provision_fetch.py:217-233 | The resolved context stays within the one derived from the file, except that a derived zero is ignored: the exact condition. |
| ContextSizing.ZeroIgnored | scripts/provision_fetch.py:217-233 | A pick whose smallest context is zero and whose weights take the whole budget: the derived zero is ignored, and the configured context is used although no token of it fits. |
| ContextSizing.MemoryBound | manage.py:1443-1465 | From the matched pick, weights and cache at the derived context fit the pool unless it is the smallest context, and exactly if they fit at that one; they then fit at whatever context is resolved. |
| WireConfig.Wire | scripts/provision_fetch.py:290-337 | The loops over the lines compute the rewritten list of lines. |
| WireConfig.SectionReplaced | scripts/provision_fetch.py:290-337 | An existing section keeps its place, nothing outside of it changes, and its body is the rewritten body. |
| WireConfig.SectionAppended | scripts/provision_fetch.py:290-337 | A missing section is appended behind all lines, after at most one blank line, with one line for each setting. |
| WireConfig.FirstLineCarries | scripts/provision_fetch.py:290-337 | In the rewritten section, the first line for each key carries its new value. |
| WireConfig.OthersKeepOrder | scripts/provision_fetch.py:290-337 | The lines no setting replaces are all kept, in their order. |
| WireConfig.ReplacedModelSurvives | scripts/provision_fetch.py:290-337 | A model line with another value survives as a comment directly in front of the new line. |
| WireConfig.WireTwice | scripts/provision_fetch.py:290-337 | Rewriting the rewritten lines changes nothing. |
| Supervision.Supervisor.LoopHead | daemon.py:177-180 | The fields of a child when its coroutine passes the loop head, stopping or not. |
| Supervision.Supervisor.AfterLaunch | daemon.py:181-191 | The fields after a successful launch, and after a failed one, which counts as a death. |
| Supervision.Supervisor.HandleExit | daemon.py:192-217 | The fields after an exit: stop, launch cap, stable reset and strikes, in this order. |
| Supervision.Supervisor.Stop | daemon.py:219-220 | The flag that the coroutines look at is set. |
| Supervision.EveryStateSound | daemon.py:177-217 | In every state of every interleaving, strikes are the deaths since and including the last stable run, launches stay within the cap, and a failed child has used up its strikes or its launches. |
| Supervision.FailedIsFinal | daemon.py:177-217 | A failed child never changes again. |
| Supervision.NoLaunchAfterStop | daemon.py:177-220 | Once stopping, no child's launch count changes in any later state. |
| Supervision.EarlyDeathsExactLaunches | daemon.py:177-217 | A child that never ran stably has at most the smaller of one more than the strikes and the cap as its launches, and exactly that many when it has failed. |
| Supervision.UndisturbedEndsFailed | daemon.py:177-217 | Without a stop or a cancellation, a coroutine that ended has failed. |
| Supervision.EventsBounded | daemon.py:177-217 | In any run a coroutine has at most four segments for each launch of the cap, and two more, whatever uptimes and launch failures occur. |
| HermesBridge.CreateCard | tools/hermes_bridge.py:212-229 | The row after a requested card, for every answer of the command line and after an exception, which leaves the mark of a request in flight, and the identifier if a card was created. |
| HermesBridge.EnqueueDelegated | tools/hermes_bridge.py:247-261 | Cards are requested for exactly the listed delegated rows without an identifier, up to the first request that raises, and all other rows stay as they are. |
| HermesBridge.RaisedIsRepeated | tools/hermes_bridge.py:212-229 | A request that raises leaves the row as it was but for the mark, so that the next cycle requests a card again. |
| HermesBridge.MirrorOutcomes | tools/hermes_bridge.py:264-285 | Only open listed rows with an identifier and a fetched card are patched, each as its card says, up to the first fetch that raises. |
| HermesBridge.TickOnce | tools/hermes_bridge.py:288-294 | A tick is an enqueue pass followed by a mirror pass, and an exception ends it there. |
| HermesBridge.RunAdvances | tools/hermes_bridge.py:146-294 | Over any run against arbitrary answers and exceptions, a recorded identifier stays, a status only moves from delegated over running to a terminal one, a row that is not open never changes, and an identifier is only recorded on a delegated row without one. |
| HermesBridge.PatchCarries | tools/hermes_bridge.py:146-209 | Which fields a patch carries for which status, and where a completed card's text comes from. |
| HermesBridge.OtherFieldsStay | tools/hermes_bridge.py:212-285 | Title, body and all other fields of a row are never touched; mirroring leaves the recorded identifier alone as well. |
| HermesBridge.SettledCardSettlesRow | tools/hermes_bridge.py:179-185 | A card in a settled column makes its open row terminal, whatever the outcome of its latest run is. |
| HermesBridge.SettlesForGood | tools/hermes_bridge.py:264-285 | A listed open row with a settled card that the tick reaches, because no request and no earlier fetch raises, is terminal after it and the same in every later state. |
| NgramCache.HashIsPolynomial | llama_cpp/common/ngram-mod.cpp:13-23 | Wrapping to 64 bits at every step is one reduction of the exact polynomial, negative tokens included. |
| NgramCache.NgramMod.Idx | llama_cpp/common/ngram-mod.cpp:13-23 | The loop computes the slot of the window, which is in range. |
| NgramCache.NgramMod.Add | llama_cpp/common/ngram-mod.cpp:25-33 | The table and the fill count keep up with the history of adds. |
| NgramCache.NgramMod.Get | llama_cpp/common/ngram-mod.cpp:35-39 | The continuation of the most recent add since the last reset that fell into the same slot, or the empty marker if there was none. |
| NgramCache.NgramMod.GetUsed | llama_cpp/common/ngram-mod.cpp:50-52 | Where the marker was never added, the number of slots in use, modulo 2^64. |
| NgramCache.SlotHoldsLast | llama_cpp/common/ngram-mod.cpp:25-39 | Each slot holds what followed the last window that fell into it. |
| NgramCache.FillsCountSlots | llama_cpp/common/ngram-mod.cpp:25-33 | Without wrap-around, the count exceeds the number of slots in use by the number of adds of the empty marker itself, so it is that number if and only if the marker was never added. |
| NgramCache.MarkerCounts | llama_cpp/common/ngram-mod.cpp:25-33 | One add of the marker itself is counted, and no slot is in use. |
| NgramCache.NgramMod.Reset | llama_cpp/common/ngram-mod.cpp:41-44 | An empty history, for the same table. |

## Left out

- Parsing of the other chat formats, regular-expression helpers and JSON healing: json-partial, regex-partial and the PEG engine are not part of this model.
- `parse_xml_tool_calls` apart from its suffix trimming: it depends on the healing and regular-expression code.
- An empty end tag: every caller passes a non-empty one; the loop of `try_parse_reasoning` needs that.
- Tool calls in message differences: a content-only parse has none.
- Whitespace beyond that of `isspace` in the C locale: Python's `strip` also removes 0x1C to 0x1F and characters outside ASCII.
- The text form of grammars: escaping of literals and character classes, code points outside ASCII, JSON schema rules for argument values, and the empty `[^]` class that results when all forbidden strings are empty.
- JsonArguments.ConstructedMapper.Map: requires an open tool call for a tool name, because the source dereferences it unchecked.
- Dumping of invalid UTF-8 by the JSON library, which throws there.
- Ellipsis in tensor indices, slices with a step or negative bounds, and tensors as indices.
- Tensor element types and lazy loading: entries are reals, and conversion to float32 is the identity.
- LoraJoining.CatCommutesIff: leaves out parts that broadcast A over no row; with them, whether the joined product is right depends on the entries, as JoinedOverNothing shows.
- Extraction of layer and head counts from the metadata dictionary, decoding of its strings as UTF-8 with replacement, and the value of floating-point fields, which keep their bytes.
- Recursion limits of Python in deeply nested arrays.
- LegacyScan.GgmlModel.LoadTensors: requires that the scan ends, as does `Load`, because a method that never returns has no result to specify.
- LegacyScan.RangesInOrderIff: is about files shorter than 2^60 bytes, as is `ForwardEnds`; the round trips are about files shorter than 2^63 bytes.
- Gguf.Reader.ReadString: answers that the file is truncated for a length of 2^63 or more; Python's `read` raises an OverflowError there, which the caller at provision_fetch.py:98 does not catch.
- Writing the converted file: only the scan of the old one is modelled.
- Bytes per element of the cache types: a parameter of the cost per token, the table at provision_fetch.py:25-34 is data.
- Rounding of floating-point numbers in the memory arithmetic: it is done over the reals.
- Host detection, downloads, the license and disk checks, and reading and writing of files.
- WireConfig.WireTwice: is about the list of lines; joining and splitting them again can drop a trailing blank line.
- WireConfig.FirstLineCarries: assumes distinct bare keys and a model value without quotes, as the callers pass; that a newline in a value would split its line is not modelled.
- Launching, signals, pidfiles and logs: the supervisor's environment answers are arbitrary. A second `start` on the same supervisor is not modelled.
- Children alive after `stop`: a launch in flight is not among the children that are stopped.
- The number of cards ever created: a request without a parsable identifier is repeated, so only the recorded identifier is unique.
- HermesBridge.RunAdvances: rows are written by the bridge only; other writers may add rows but do not change existing ones.
- HermesBridge.MirrorOutcomes: takes statuses and outcomes as stripped and in lower case and metadata as decoded.
- Storage of the board: a map with merged patches; listing returns each row at most once.
- NgramCache.FillsCountSlots: counts without wrap-around; the class wraps its counter at 2^64.
- Command-line options, panels, voice client and migration scripts: plumbing without a property to prove.
