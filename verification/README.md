# A verified model of Argus

Argus is an agent server: it takes messages over Telegram and HTTP, runs a tool-calling loop around a
language model, keeps sessions in SQLite and schedules work for later. This project models the parts
of it where correctness is hardest to see, in Dafny 4.11, and proves what they promise. `dafny verify
dfyconfig.toml` checks everything.

## What is modelled

**The message splitter** (`TgMarkup`, `TgLex`, `TgChunk`, `TgSigns`, `TgWalk`, `TgCut`, `TgRound`,
`TgBreaks`, `TgBudget`, `TgRejoin`, `TgLoss`, `TgSplit`, `TgSamples`). Telegram HTML is lexed into tokens, chunks are
filled while a stack of open tags is carried, a cut is chosen by tier, markup is closed and reopened around
it, and a token that is too long is sliced. Its meaning is fixed independently by `TgMarkup.Read`, a reader
that goes through a text from left to right and pairs every sign it shows, a character or an entity as one,
with the tags open there. Read each on its own and joined, the splitter's chunks show what the text shows.
Where something had to be given up, chunks and reports together tell the whole story of the text.

**Mid-turn steering** (`Replacing`, `Steering`, `Markers`, `LoopWorld`, `LoopSteps`, `LoopLaws`, `RunLoop`).
The channel of one run, the request the model is sent, and the agent loop as a class whose methods change the
conversation, the trace and the observers' counters step by step. The model, the tools, the gate and the user
are a record of functions (`LoopWorld.World`), so every theorem is about any behaviour of theirs. Ghost ledgers
note what was run, nudged, refused and survived. `LoopSteps` is the whole run as a function of that record, every
method of the class computes its part of it, and `LoopLaws` proves what the function means for the conversation,
the requests and the answer.

**The life of runs** (`RunLife`, `Engine`). A state machine over starts, notes, tool results, stops,
interrupts, finishes and queued work in any order, with a ledger that holds every accepted note; and the
engine's own class over its two tables and real channels, each method of which takes exactly one step of
that machine.

**The session store** (`SessionBook`, `SessionStore`). The meaning of a sequence of operations, with no
cache and no tables, and a class with a cache of mutable sessions over two tables that refines it.

**The scheduler** (`Schedule`, `Scheduler`, `Reconciler`). The next run of a schedule, firing what is
due, and reconciling the routine jobs with the routine store.

**Smaller algorithms**: plain-text splitting (`PlainSplit`), saving the configuration into `.env`
(`EnvFile`, `ChatIds`), streaming a log (`LogTail`) and ranking friction by two stable sorts
(`StableSort`, `Friction`). `Text` holds the string functions they share; `Echo` is the part of the loop
that appends outputs which must reach the user.

## What came out

Where the code and its documentation differ, the model follows the code.

- The splitter's fallback `[text[:limit]]` (telegram_bot.py:444) need not be valid markup: `<b><i>` with
  limit 5 gives `<b><i`, which leaves `<b>` open. `TgSplit.SplitHtml` proves that every chunk of a split
  text is balanced if and only if some part of the text can be sent or the fallback happens to be.
- "Code is cut at a newline or not at all" (telegram_bot.py:380) is not what the code does: a cut at a
  token edge (428-431) is made inside code too. `<pre>aa&amp;bb</pre>` at limit 18 is cut that way
  (`TgSamples.CodeCutAtEdge`). `TgRound.CodeCuts` says when the code does what is documented: a round
  that ends inside code ends at a newline if and only if a break was passed before the chunk was full.
- Cuts are not "never inside a tag or an entity" (telegram_bot.py:376-377): an entity that does not fit
  behind the markup of its chunk is sliced like a word. From `<b><i><u>&amp;</u></i></b>` at limit 25 the user
  is sent `&am…` and `p;` (`TgSamples.EntityCutThrough`). `TgBudget.RoundHalves` says exactly which rounds do
  this, and `TgSplit.SplitHtml` with `TgSplit.KeepsAll` exactly which texts arrive with every entity whole.
  All do that leave room for 14 characters, the length of the longest entity, wherever something is shown,
  if no `<...>` that is not a tag is longer than that and has an ampersand in it (`TgSplit.RoundShort`).
- That 7/3 of the tag text plus the longest whitespace run leaves room does not keep the splitter from
  dropping something: inside `<pre>` blanks are no boundary, so several runs can pile up before anything
  is shown. `TgSamples.LongestRunIsNotEnough` proves it of `<pre>`, 100 blanks, `<i>`, 55 blanks,
  `<u>x</u></i></pre>` at limit 174. For texts without code the budget is right
  (`TgBudget.LongestRunKeepsAll`); for all texts it is with the largest pile in place of the longest run
  (`TgBudget.BudgetKeepsAll`). Exactly when a token is dropped is `TgBudget.RoundDrops`, a test on the
  tokens from where a chunk begins. `TgSplit.KeepsAll` is that test at every chunk of a run, which it
  follows round by round; `TgSplit.SplitHtml` loses nothing if and only if it holds.
- A stop drops the notes of the channel that is registered for the session, if a run of it is registered,
  and touches nothing else. So a note accepted before a stop can still come back as a follow-up, in three
  ways: another run of the session holds it (`RunLife.OverlapResends`); the run that holds it is no longer
  registered, because a run that came after it took its entry along (`RunLife.UnregisteredResends`; a skill's
  run at engine.py:1791-1797 does that too); or its run has ended and the follow-up that carries it has not
  started yet (`RunLife.FollowUpResends`; `_run_after` yields, delivers a notice and sets the run up before
  anything is registered, and `stop` does not look at it). `RunLife.StopSilences` gives the exact condition
  in every reachable state. Without overlapping starts only the third way is left, and `RunLife.ApartStops`
  says exactly when it is taken.
- A paragraph or line break is taken by the plain splitter only in the second half of a window.
  `PlainSplit.HardCut` says exactly when a word is cut; `PlainSplit.EarlyBreakIgnored` is a window that is
  cut inside a word although it holds a line break.

## Model

| member | source | states |
|---|---|---|
| TgMarkup.ApplyTag | backend/telegram_bot.py:339-353 | one token's effect on the open tags: a closing tag drops the innermost tag of its name and all inside it, a stray one nothing; void tags and text nothing; an opening tag is pushed whole |
| TgMarkup.TagIs | backend/telegram_bot.py:336 | what a tag is: `<`, blanks, a `/` if it closes, blanks, and a name that begins with a letter, read in lower case |
| TgMarkup.NamesAre | backend/telegram_bot.py:336 | which characters tag names are made of, at the ends of their ranges, and their lower case |
| TgMarkup.AppliedIs | backend/telegram_bot.py:329-353 | an opening tag goes on top, a closing one takes the innermost tag of its name and all above it away, or nothing; br, hr and img never count; code is pre and code |
| TgMarkup.AppliedWf | backend/telegram_bot.py:344-353 | the stack only ever holds tags that open what their entry names |
| TgMarkup.ReadConcat | backend/telegram_bot.py:333-336 | reading is compositional: a text read in two parts is the text read whole, unless the first ends in an unfinished tag or entity that the second finishes |
| TgMarkup.ReadOpeners | backend/telegram_bot.py:360-361 | the reopened tags, read from nothing, show nothing and leave exactly that stack open |
| TgMarkup.ReadClosers | backend/telegram_bot.py:356-357 | the closing tags show nothing and close exactly that stack |
| TgMarkup.ClosersLength | backend/telegram_bot.py:356-357 | closing a stack takes at most 4/3 of the characters that reopening it takes |
| TgLex.LexLossless | backend/telegram_bot.py:333-335 | lexing loses nothing: the tokens concatenate to the text, for every text |
| TgLex.TokenIs | backend/telegram_bot.py:333-335 | the first token is the tag or the entity that begins there, else all of the whitespace or all of the word, else one character |
| Text.SpacesAre | backend/telegram_bot.py:335 | what counts as whitespace |
| TgLex.LexClean | backend/telegram_bot.py:333-335 | every token is a bracketed tag, free of `<`, or a stray `<` that what follows cannot complete to a tag, and only whitespace tokens end in whitespace |
| TgLex.ReadTokens | backend/telegram_bot.py:333-335 | reading the text is reading its tokens one by one |
| TgChunk.ChunkRead | backend/telegram_bot.py:411-417 | a chunk made of openers, tokens and closers reads back to nothing open and shows what its tokens show under the carried tags |
| TgChunk.SlicedRead | backend/telegram_bot.py:432-443 | a chunk ending in part of a token and the mark shows its tokens, that part and the mark, and is balanced |
| TgSigns.GlyphsCut | backend/telegram_bot.py:435-443 | a cut through no entity leaves every sign whole |
| TgSigns.GlyphsHalved | backend/telegram_bot.py:435-443 | a cut through an entity shows at least one entity less |
| TgSigns.LexAmps | backend/telegram_bot.py:333-335 | of the tokens of a text only a bracketed one can be longer than an entity and have an ampersand in it |
| TgWalk.Fill | backend/telegram_bot.py:394-418 | the walk stops at the first token that does not fit, and has noted exactly the last admissible break of every tier |
| TgWalk.Pick | backend/telegram_bot.py:419-423 | the highest tier that fills 30% of the room is taken, else the longest chunk, and a break whenever there is one |
| TgCut.NextCut | backend/telegram_bot.py:390-443 | which of the five exits a round takes and what chunk, stack and token it leaves, each with the reason that forces it |
| TgRound.OneOutcome | backend/telegram_bot.py:390-443 | those reasons leave exactly one outcome for every round |
| TgRound.CarryFits | backend/telegram_bot.py:424-443 | openers plus closers of what is carried over never exceed the limit |
| TgRound.CutsAtBreak | backend/telegram_bot.py:400-427 | a round cuts at whitespace if and only if a break was passed before the chunk was full |
| TgBreaks.BreakChoice | backend/telegram_bot.py:400-427 | which whitespace a chunk ends at, without tiers: the last paragraph break it could end at, if one was passed with 30% of the room filled; failing that the same for a line break, then for a blank; failing that the last of all |
| TgRound.EdgeWhereItOverflows | backend/telegram_bot.py:428-431 | without a break, a chunk that shows something ends at the very token that did not fit |
| TgRound.CodeCuts | backend/telegram_bot.py:400-431 | a round that ends inside code ends at a newline if and only if a break was passed; a whitespace cut in code is at a newline, and any other cut leaves no newline behind visible text or markup |
| TgSamples.CodeCutAtEdge | backend/telegram_bot.py:428-431 | for a concrete text of code without a newline, every outcome of the first round is a cut inside the code at a token edge |
| TgSamples.ParagraphFirst | backend/telegram_bot.py:400-427 | for a concrete text with an empty line and a later new line in reach, every outcome of the first round is a cut at the empty line |
| TgBudget.FitsNothingChain | backend/telegram_bot.py:386-440 | walking over tokens that neither show anything nor offer a break does not change whether anything can be sent at all |
| TgBudget.RoundFits | backend/telegram_bot.py:390-440 | a round with nothing carried sends something exactly if something can be sent |
| TgBudget.RoundDrops | backend/telegram_bot.py:390-440 | a round drops a token if and only if, from its first token on, nothing is shown and no break is passed before a token that can neither be taken nor sliced |
| TgBudget.RoundHalves | backend/telegram_bot.py:432-443 | a round cuts through an entity if and only if, with nothing shown and no break passed, the first token that does not fit can be cut, and the room left ends inside an entity of it |
| TgBudget.RoomyRound | backend/telegram_bot.py:390-440 | where markup and whitespace leave room for some characters (two or more) up to the next visible thing or break, no token is dropped, and only visible text longer than that is sliced |
| TgBudget.BudgetKeepsAll | backend/telegram_bot.py:391-440 | 7/3 of the tag text, the largest pile of whitespace a chunk can take in before it shows something or passes a break (its first run, and newline-free runs in code) and some characters to spare within the limit: then there is room for these everywhere, and `TgSplit.SplitHtml` reports no loss (two to spare) and cuts through no entity (fourteen) |
| TgBudget.PilesAreRuns | backend/telegram_bot.py:400-404 | outside code a pile is a single whitespace run |
| TgBudget.LongestRunKeepsAll | backend/telegram_bot.py:391-440 | for texts that open no code the longest single whitespace run takes the place of the largest pile |
| TgSamples.LongestRunIsNotEnough | backend/telegram_bot.py:400-440 | for a concrete text with code they do not, not even with 15 characters to spare: every outcome of the first round is a dropped token |
| TgSamples.EntityCutThrough | backend/telegram_bot.py:376-377 | for a concrete text every outcome of the first round slices the entity, so the text does not arrive as it was |
| TgRejoin.EdgeFaithful | backend/telegram_bot.py:428-431 | a cut at a token edge preserves what is shown, sign by sign with its tags |
| TgRejoin.BreakFaithful | backend/telegram_bot.py:423-427 | a cut at a break leaves out that whitespace and nothing else |
| TgRejoin.SliceFaithful | backend/telegram_bot.py:435-443 | slicing a token adds the mark and loses no character; every sign stays whole if and only if the cut goes through no entity |
| TgRejoin.RejoinCounts | backend/telegram_bot.py:435-443 | however the chunks are put back together, as many entities are shown whole as the chunks show |
| TgLoss.CharsVisible | backend/telegram_bot.py:333-336 | which characters a text shows does not depend on the open tags: they are its tokens without the tags |
| TgLoss.SendAccounted | backend/telegram_bot.py:424-443 | a chunk that was sent adds to the story the stretch it used up, shown under the tags open before it |
| TgLoss.DropAccounted | backend/telegram_bot.py:436-440 | a dropped token is skipped with what stood before it since the chunk began, which shows nothing; its tags are never opened |
| TgSplit.RoundFaithful | backend/telegram_bot.py:390-443 | after every round that drops nothing, chunks sent and tokens to come make up the source character by character, and sign by sign if and only if no entity was cut through so far |
| TgSplit.RoundAccounted | backend/telegram_bot.py:390-443 | after every round, dropping or not, the chunks show exactly the stretches that were sent, each under the tags left open by those before it, and the log reports the rest |
| TgSplit.RoundShows | backend/telegram_bot.py:411-443 | a chunk shows exactly the tokens the round used up, and leaves open what they do |
| TgSplit.RoundShort | backend/telegram_bot.py:432-443 | with room for fourteen characters at every chunk, no round cuts through an entity |
| TgSplit.KeepsRound | backend/telegram_bot.py:390-443 | a text is split without loss (and with every entity whole) if and only if the round drops nothing (and cuts through none) and so is the rest |
| TgSplit.RoundChunk | backend/telegram_bot.py:417-441 | every chunk a round emits closes what it opens |
| TgSplit.RoundShrinks | backend/telegram_bot.py:390-443 | every exit, the in-place slice included, leaves strictly less text to send |
| TgSplit.SplitHtml | backend/telegram_bot.py:374-444 | for every text and limit: it ends, every chunk is within the limit, and the chunks show what the text shows, character by character, if nothing was reported lost; nothing is reported if and only if no chunk begins too deeply nested or gets stuck, and every sign arrives whole if and only if besides no cut goes through an entity; in every case chunks and reports tell what became of every stretch of the text and under which tags it is shown; all chunks are balanced if and only if some part can be sent or the cut-off text is balanced itself |
| TgSamples.HopelessMayBeUnbalanced | backend/telegram_bot.py:444 | the fallback is not always valid markup |
| Replacing.ScrubRemoves | engine/steering.py:185-193 | one left-to-right replacement leaves no occurrence of the nonce |
| Replacing.ReplaceAbsent | engine/steering.py:185-193 | text without the nonce comes back unchanged |
| Replacing.RewriteOneMore | engine/steering.py:175-180 | one more `replace` adds one more id, so the order of the sentinel set does not matter |
| Replacing.RewriteExact | engine/steering.py:175-180 | the run's id stands afterwards exactly where an issued id, or its own, stood before |
| Replacing.NonceOnlyInIds | engine/steering.py:175-180 | in text without the nonce it stands afterwards only inside rewritten ids |
| Steering.SteerChannel.Queue | engine/steering.py:101-113 | a note is accepted exactly if it is not blank, not too long and there is room, and then it is last in the queue; every refusal names its reason |
| Steering.SteerChannel.Abandon | engine/steering.py:115-123 | everything queued is dropped and counted |
| Steering.SteerChannel.Drain | engine/steering.py:125-128 | everything queued is handed over in order, and the queue is empty |
| Steering.SteerChannel.Attach | engine/steering.py:131-146 | all queued notes land in arrival order in one block under a fresh sentinel, which is then an issued one; without notes nothing changes |
| Steering.SteerChannel.Substitute | engine/steering.py:175-178 | replacing the sentinels one by one, in any order, is one simultaneous rewriting |
| Steering.SteerChannel.Apply | engine/steering.py:158-182 | the request is a copy with the placeholder filled in the system message and the issued ids rewritten; the channel is unchanged |
| Steering.RewriteKeeps | engine/steering.py:158-182 | splicing keeps every length and touches only characters of ids |
| Steering.GenuineMarkers | engine/steering.py:158-182 | the model sees a marker with the run's id exactly where the stored text has one with an issued sentinel |
| Steering.AttachedIsGenuine | engine/steering.py:131-146 | a block appended to a tool result is genuine in every later request |
| Markers.OnlyReplaced | engine/steering.py:172-174 | in text that did not contain the nonce, every occurrence after the placeholder was filled in is one that was put in, or overlaps one |
| Markers.PromptTellsNonce | engine/steering.py:172-174 | the model is told the run's id: the prompt is unchanged up to its first placeholder, and the nonce stands there |
| Markers.NonceInPrompt | engine/steering.py:172-174 | with separate placeholders the nonce stands exactly where one was filled in |
| Markers.SplicedOnlyText | engine/steering.py:169-182 | splicing leaves roles, calls and anything that is no text alone, and messages without a marker |
| Markers.NonceInBlock | engine/steering.py:131-146 | in a tool result with a block, for any result and notes without issued ids, the request shows the nonce exactly twice: in the block's opening and in its closing mark |
| Markers.NonceOnlyWhereMeant | engine/steering.py:158-182 | in the request the nonce stands at every placeholder of the prompt that was filled in, and but for that only in issued ids; in a prompt whose placeholders have no digit of an id next to them it stands there and nowhere else |
| Markers.NonceOnlyInBlocks | engine/steering.py:158-182 | in the request made of outside text and of results with attached blocks, it stands there and, in any other message, exactly in the two marks of a block that `attach` made |
| LoopWorld.ScrubbedIsFree | engine/steering.py:195-206 | a scrubbed reply is free of the nonce if only the covered fields could carry it |
| LoopWorld.ScrubKeeps | engine/steering.py:185-206 | scrubbing replaces the nonce in the content, the reasoning and the arguments, and leaves all else, and every reply without it, as it was |
| LoopWorld.FreeForModel | engine/loop.py:206-219 | a tool result with warning and block is free of the nonce, also across the seams |
| RunLoop.Run.ForModel | engine/loop.py:197-219 | what the model sees of a result: the warning if a foreign marker is in it, then all waiting notes in one block; no note is left waiting |
| RunLoop.Run.Land | engine/loop.py:434-435 | the conversation grows by exactly the result messages, whose text is the result with the warning and the waiting notes, those that arrived in the meantime last; a text result leaves no note waiting |
| RunLoop.Run.Ask | engine/loop.py:234-257 | the request is emitted without the nonce; only the outbound copy has it; the reply comes back without it |
| RunLoop.Run.RepeatCheck | engine/loop.py:221-232 | a signature is nudged exactly when its count is the threshold |
| RunLoop.Run.FuzzyCheck | engine/loop.py:347-363 | the soft nudge comes exactly when the last calls (all of them for a window of zero), two or more, are of this tool and alike, and only once |
| RunLoop.Run.CreateCheck | engine/loop.py:439-450 | the third create in a row nudges, and only once |
| RunLoop.Run.OnFailure | engine/loop.py:274-299 | a parse failure ends the run exactly if the step before failed too |
| RunLoop.Run.OnRefused | engine/loop.py:398-404 | a call the gate refuses is counted, not run and not nudged |
| RunLoop.Run.Execute | engine/loop.py:343-437 | a counted call is run exactly if validation and gate let it through, the counters keep explaining every nudge, and the new state is the one `LoopSteps.Executed` gives |
| RunLoop.Run.Settle | engine/loop.py:378-450 | validation's, the gate's and the tool's word are followed: what is stored, emitted, kept and queued afterwards is the whole new state |
| RunLoop.Run.Report | engine/loop.py:434-450 | the result lands in the conversation, and the two observers look at it |
| RunLoop.Run.OnCall | engine/loop.py:301-341 | the run stops for repeating exactly if the signature was seen threshold times before and the recreate stop did not come first; nothing is run then |
| RunLoop.Run.StopRepeating | engine/loop.py:330-341 | the stop is at count threshold plus one, after a nudge of that signature or a refusal of its threshold-th call |
| RunLoop.Run.OnAnswer | engine/loop.py:266-272 | the answer that is stored as the last message, emitted as final and returned is the model's with the missing outputs appended |
| Echo.WithUnechoed | engine/loop.py:67-83 | the outputs whose longest line the answer does not hold are appended, trimmed and in order; if there is none the answer is unchanged |
| Echo.BodyIs | engine/loop.py:73-74 | of an output with a fenced part that part counts |
| Echo.NoFence | engine/loop.py:73-74 | of an output without fences all of it does |
| Echo.ProbeIs | engine/loop.py:75-78 | what an output is recognised by: the first of its longest lines, trimmed |
| Echo.UnechoedIs | engine/loop.py:79-83 | one more output changes the answer exactly if it is not shown, and then stands at its end behind an empty line |
| Echo.EchoReaches | engine/loop.py:67-83 | the answer shows the longest line of every output that must reach the user |
| LoopWorld.FreeUnechoed | engine/loop.py:67-83 | appending outputs brings no nonce into the answer |
| RunLoop.Run.Loop | engine/loop.py:234-455 | for any model, tools, gate and notes: the final state and the answer are those of `LoopSteps.Whole`; at most `max_steps` model calls; no signature runs more than threshold times; no two parse failures in a row are survived; soft nudges at most once; nothing stored, emitted or answered contains the nonce |
| LoopLaws.SeenIs | engine/loop.py:197-219 | a result text as the model sees it: the warning if there is a foreign marker, then all waiting notes in one block of the stated form |
| LoopLaws.CallWrites | engine/loop.py:343-450 | a call that was counted adds to the conversation the soft nudge if due, then the result messages of exactly what validation, gate or tool said, then the nudges if due; or it ends the run with its result or the pause |
| LoopLaws.SimilarIs | engine/loop.py:347-357 | when the soft nudge is due: the last calls of the window, two or more, are of one tool and alike |
| LoopLaws.CountersMove | engine/loop.py:343-450 | every call is remembered; creates in a row are counted among the calls that ran on; a nudge is remembered once it was given |
| LoopLaws.StepTells | engine/loop.py:234-450 | what every step writes, when it ends the run, and with what answer, for every reply, parse and outcome; it asks the model once, with all that is in the conversation |
| LoopLaws.StepReachesModel | engine/loop.py:234-455 | what a step writes stands in the final conversation, in order, and the next request is made of it |
| LoopLaws.RunAnswers | engine/loop.py:234-455 | the answer is that of the first step that ends the run, or says that the steps are used up |
| LoopLaws.OutputsKept | engine/loop.py:418-420 | the outputs that must reach the user are kept, all and in order, for the answer |
| RunLife.StepKeeps | engine/engine.py:2330-2463 | every action keeps the invariant: what waits and what landed on a run is the ledger's, in order, and late notes are in exactly one follow-up |
| RunLife.AlwaysFromInit | engine/engine.py:2330-2463 | so after every sequence of actions each accepted note is in exactly one of waiting, landed, dropped and re-sent, late notes are re-sent by one task and in order, and a queued task has started only after the run it was queued behind |
| RunLife.AfterLater | engine/engine.py:2330-2463 | over any run a note's fate never changes once it has one, landed notes keep their order, and no accepted note is lost |
| RunLife.StopIsFinal | engine/engine.py:2330-2362 | a stop drops exactly the waiting notes of the session's registered channel, for good |
| RunLife.StopSilences | engine/engine.py:2330-2362 | in every state and for every future: nothing accepted before a stop, waiting or already in a follow-up, resurfaces if and only if every run of the session that holds notes is the one whose channel is registered, a run is registered to be stopped, and every follow-up of the session's late notes has started |
| RunLife.StopMisses | engine/engine.py:2356-2362 | the notes of any other run come back as a follow-up when it finishes, whether or not the stop found a run |
| RunLife.ApartStops | engine/engine.py:2330-2362 | if no run starts on a session with one in flight, no waiting note resurfaces after a stop, after any history, before any future and whether or not it finds a run; and nothing at all does if and only if no follow-up is still to start |
| RunLife.OverlapResends | engine/engine.py:2116-2137 | two overlapping runs, and a note resurfaces after the stop |
| RunLife.UnregisteredResends | engine/engine.py:2116-2137 | a run that came and went took the registration along: the stop finds nothing, and the note of the run still at work is re-sent |
| RunLife.FollowUpStarts | engine/engine.py:2405-2430 | whatever the state, a follow-up that has not started can start right after a stop |
| RunLife.FollowUpResends | engine/engine.py:2439-2463 | without any overlap: a run ends with a note waiting, the stop finds nothing, and the follow-up starts after it |
| Engine.Engine.Steer | engine/engine.py:2370-2388 | takes the steer step of the state machine; off, not running, or the channel's own answer: accepted with how many wait, empty, too long, or too many |
| Engine.Engine.AbandonSteers | engine/engine.py:2356-2362 | the registered channel is emptied, and how many notes that dropped |
| Engine.Engine.Stop | engine/engine.py:2330-2354 | takes the stop step (and the interrupt step): notes dropped first, then the run cancelled, the tables as they were; true exactly if a run was in flight |
| Engine.Engine.ToolResult | engine/loop.py:206-219 | takes the tool-result step on the run's own channel, and the text shows the notes that landed |
| Engine.Engine.Register | engine/engine.py:2116-2121 | takes the start step: a run enters both tables at once, with an empty channel of its own unless steering is off or it is a routine |
| Engine.Engine.Unwind | engine/engine.py:2126-2137 | takes the finish step: out of the tables, the channel emptied, and what never landed joined into one follow-up |
| Engine.Engine.DeliverLate | engine/engine.py:2439-2463 | the notes that are not empty, joined, become one task that waits for nothing, or none if nothing is left |
| Engine.Engine.QueueTask | engine/engine.py:2390-2397 | takes the queue step: the new task waits for the very run in flight, if there is one |
| Engine.Engine.RunAfter | engine/engine.py:2405-2430 | a task becomes a run only when the run it waits for is over |
| SessionBook.RestartsInvisible | engine/state.py:89-98 | restarts, however many and whenever, change nothing a kept session shows |
| SessionBook.LogIsComplete | engine/state.py:73-87 | the raw log is every message appended since the session was last deleted, once and in order, whatever compaction, reset and restart did |
| SessionBook.RowSays | engine/state.py:73-87 | row k of the log has the role of the k-th message, and its text, or its JSON if its content is no string |
| SessionBook.ConversationIsAppended | engine/state.py:112-124 | until an operation on this very session rewrites it, the working set is what was appended |
| SessionBook.ConversationSinceRewrite | engine/state.py:126-155 | after a compaction or reset it is what that left and what was appended since, whatever happens to other sessions |
| SessionBook.NothingWithoutRow | engine/state.py:61-98 | a kept session without a row is empty; one that is not kept has no row and no log |
| SessionBook.KeptIs | engine/state.py:24-25 | a session is kept if there is a database and its id does not begin with two underscores |
| SessionBook.ManualNameWins | engine/state.py:206-227 | a name a person gave is never replaced by an automatic title |
| SessionBook.PagesConcatenate | engine/state.py:157-168 | consecutive pages concatenate to the log, for any page size asked for |
| SessionBook.PageIs | engine/state.py:157-168 | a page is the rows from the offset on, as many as asked for but at least one and at most 1000 |
| SessionStore.OpKeeps | engine/state.py:61-98 | an operation that gets its own session right leaves cache, rows and log right for all |
| SessionStore.Store.AppendLog | engine/state.py:73-87 | new log rows are numbered on from the highest there is, without gap, for kept sessions only |
| SessionStore.Store.GetOrCreate | engine/state.py:101-110 | the cached session, loaded or created, and nothing about it changes but that it has a name; cache and tables go on agreeing |
| SessionStore.Store.AppendMessage | engine/state.py:112-117 | one message is appended to working set, log and row |
| SessionStore.Store.ExtendMessages | engine/state.py:119-124 | working set, log and row all take the messages, and no other session changes |
| SessionStore.Store.SetWorkingSet | engine/state.py:126-131 | compaction replaces the working set and leaves the log alone |
| SessionStore.Store.RecordRun | engine/state.py:145-149 | the run is noted in cache and row |
| SessionStore.Store.Reset | engine/state.py:151-155 | the working set is emptied in cache and row, the log untouched |
| SessionStore.Store.Conversation | engine/state.py:133-143 | the answer is the session's working set, cached or not, and no row is made |
| SessionStore.Store.SessionMessages | engine/state.py:157-168 | the total and exactly the asked-for page of the log, numbered 0, 1, .., limit clamped to 1..1000; its rows say what the messages said |
| SessionStore.Store.CreateSession | engine/state.py:181-193 | a new empty session under a new id, named as asked or by its id, and no other changes |
| SessionStore.Store.SessionName | engine/state.py:195-204 | the name of the row, if there is one |
| SessionStore.Store.RenameSession | engine/state.py:206-211 | an existing row takes the name |
| SessionStore.Store.RenameIfPlaceholder | engine/state.py:213-227 | renames exactly if the name still is the id |
| SessionStore.Store.DeleteSession | engine/state.py:229-235 | cache, row and log of this session are gone, and of no other |
| SessionStore.Store.Restart | engine/state.py:36-58 | an empty cache over the same tables: every kept session is what it was |
| Schedule.NextIsFirst | engine/scheduler.py:127-133 | the least instant strictly after now with that clock time and weekday, within a day or a week |
| Schedule.NextIsLater | engine/scheduler.py:120-134 | the next run always lies ahead if and only if the schedule is neither a one-off nor an interval that is not positive |
| Schedule.CalendarIs | engine/scheduler.py:127-133 | the first day is a Thursday, weekdays follow each other every 24 hours, and clock times are hours and minutes since midnight |
| Scheduler.NextIsNext | engine/scheduler.py:120-134 | the next run is the first occurrence after now, the interval in seconds later, the given instant, or 3650 days away |
| Scheduler.Scheduler.Add | engine/scheduler.py:199-205 | a new active job waits for its next run; the rest of the table is unchanged |
| Scheduler.Scheduler.Cancel | engine/scheduler.py:211-217 | deactivates exactly a job the caller may reach |
| Scheduler.Scheduler.Update | engine/scheduler.py:219-231 | changes what was given, works the next run out anew if the schedule was, and makes the job active |
| Scheduler.Scheduler.RunJob | engine/scheduler.py:260-285 | a run is counted, and noted at a moment during the call; a one-off is done, anything else waits for the run worked out at a later moment of the call |
| Scheduler.Scheduler.FireDue | engine/scheduler.py:254-285 | every job that is due fires exactly once, at moments during the call, and no other is touched |
| Scheduler.FiredIsNext | engine/scheduler.py:260-285 | a job that fired waits for the very next occurrence as of a moment during the call, none is skipped, and nothing else about it changes |
| Scheduler.HandledNotDue | engine/scheduler.py:281-284 | a job that was handled is not due again at that moment |
| Scheduler.Scheduler.FireDueTwice | engine/scheduler.py:254-285 | a second call for the same moment fires nothing |
| Reconciler.Existing | engine/engine.py:745-746 | an index of the active routine jobs, complete and exact |
| Reconciler.SyncRoutineSchedules | engine/engine.py:739-764 | one active job on its schedule for every wanted routine and for no other; jobs that were there are kept, new ones are the owner's, prompt jobs untouched |
| Reconciler.JobsOf | engine/engine.py:739-764 | a routine that is disabled, has no schedule or one that cannot be read has no active job; any other has one on that schedule |
| Reconciler.SecondPassKeeps | engine/engine.py:739-764 | a second pass keeps every job id, also when the clock has moved and schedules are read differently, as long as the same ones can be read |
| PlainSplit.HardCut | backend/telegram_bot.py:522-529 | a word is cut if and only if the window has no blank after its first character and no line break in its second half; any other cut is at a blank or a line break |
| PlainSplit.CutTakes | backend/telegram_bot.py:522-529 | the last paragraph break is taken if it is in the second half, else the last line break if it is, else the last blank |
| PlainSplit.PiecesLong | backend/telegram_bot.py:521-536 | a piece is the text up to the cut of its window without blanks at its end, and the next begins at what is not blank behind it |
| PlainSplit.EarlyBreakIgnored | backend/telegram_bot.py:524-529 | a line break at the front of a long word does not save the word from being cut |
| PlainSplit.PiecesKeep | backend/telegram_bot.py:524-538 | no piece is too long, none but the first is empty or starts with whitespace, and all that is visible is kept in order |
| PlainSplit.SplitPlain | backend/telegram_bot.py:518-538 | it ends, and so do its pieces, for every text and positive limit |
| EnvFile.PersistToEnv | config.py:406-434 | the file is the renewed lines and the missing assignments, each on a line |
| EnvFile.AssignSets | config.py:421-426 | a written assignment is read as that key with that value |
| EnvFile.ConfiguredReads | config.py:418-431 | a configured key then reads its value whether the first or the last assignment wins |
| EnvFile.OthersRead | config.py:418-431 | any other key reads what it did before |
| EnvFile.OtherLinesStay | config.py:420-428 | lines keep their place; only assignments of configured keys change, and only such are added |
| EnvFile.PersistedTwice | config.py:418-431 | saving the same configuration again changes no line |
| EnvFile.FileSettles | config.py:413-434 | and not a character of the file |
| EnvFile.ReadBack | config.py:416-434 | a file written line by line reads back line by line |
| ChatIds.IdsReadBack | config.py:306-313 | the chat ids that are written are the chat ids that are read |
| ChatIds.ListReads | config.py:306-313 | a list is read exactly if all that is not blank in it is numbers, and then it is these |
| LogTail.SplitLossless | engine/logtail.py:56-58 | complete lines and unfinished tail make up the text, and no line holds a line break |
| LogTail.StreamStep | engine/logtail.py:55-58 | text that comes later adds to the lines what it completes, and only touches the tail |
| LogTail.Tailer.Poll | engine/logtail.py:38-60 | what was yielded is the non-empty complete lines of all that was read, for any chunking, and the buffer its tail; a rotation starts over |
| StableSort.SortSorts | engine/friction.py:108-109 | sorting gives a descending permutation |
| StableSort.SortIsStable | engine/friction.py:108-109 | what ties keeps its order |
| StableSort.TwoSortsAreOne | engine/friction.py:108-109 | sorting by the tie-break and then by the criterion is one sort by both |
| Friction.GroupMeans | engine/friction.py:95-107 | a group counts its records, has their latest date, the most attempts of any, and the detail and model of the last record with that date |
| Friction.CountsPartition | engine/friction.py:95-107 | every record is counted in exactly one group |
| Friction.FrictionLog.Summary | engine/friction.py:88-110 | all groups, once each, by count and then by latest date, both descending |
| Friction.FrictionLog.Add | engine/friction.py:67-85 | the record is last, its detail cut to 400 characters, and only the oldest past 5000 are dropped |

## Left out

- The network, the HTTP routes, the Telegram handlers, SSE, subprocesses, charts and the dashboard.
- Model replies, tools, validation, the approval gate and the tool-calling modes are arbitrary functions in `LoopWorld.World`; so are the fixed texts, the similarity of calls (`_jaccard`), the image stripping before a request and `inspect`'s regular expression. The proofs about the nonce assume of them that they do not invent it (`LoopWorld.Fresh`): random ids are distinct and occur in no outside text, and replies carry the nonce only in the fields the leak defence covers.
- Progressive tool disclosure, friction records and event data that holds only numbers or flags are not part of the loop's model.
- `scrub_response` edits the reply object in place and swallows exceptions; here a scrubbed reply is a new value.
- An entity is what the splitter's pattern takes for one; what character it stands for is not modelled.
- TgSplit.SplitHtml: a limit below zero is not modelled, Python's slices would count from the end.
- PlainSplit.SplitPlain: a limit of zero is excluded, because the source does not end there.
- Steering.SteerChannel.Attach: the sentinel is a parameter, assumed fresh.
- RunLoop.Run.Ask: the nonce's freedom in emitted requests is about the strings of messages, not about their JSON.
- RunLife.AlwaysFromInit: a task's origin, the user notices and event publication are not modelled; a run is over when it leaves the tables, although its Python task ends a little later.
- Engine.Engine.Stop: interrupt also waits for the run to unwind; here the finish that it waits for is a step of its own.
- The store is modelled sequentially: `get_or_create` gives up the lock before the append takes it, so a deletion can come between; timestamps, `list_sessions` and `archived` are left out, and stored JSON is assumed to read back as written. `append_message` is `extend_messages` with a list of one.
- SessionStore.Store.CreateSession: the random id is a parameter, assumed new.
- Schedule.NextIsFirst: the offset from UTC is fixed; a change to summer time in between is not modelled.
- Scheduler.Scheduler.FireDue: jobs are not edited while they run, and what a run returns is not kept; delivery and the jobs file are left out.
- Reconciler.SyncRoutineSchedules: no routine has two active jobs to begin with (every pass establishes this, but `update` can change a job's instruction or revive a cancelled one); routine names are distinct, and new job ids are new.
- Natural-language schedules (`parse_schedule`) are a parameter.
- EnvFile.PersistToEnv: values with line breaks are excluded; how a reader strips quotes and blanks from a value is not modelled.
- ChatIds.IdsReadBack: `int` also accepts underscores and other digits, which are never written.
- LogTail.Tailer.Poll: decoding is exact for ASCII; a character of several bytes that is split between two reads is decoded in two halves, so for such text the stream is that of the decoded chunks, not of the decoded file. A file that was replaced by a longer one is not noticed, as in the source.
- Friction.FrictionLog.Summary: dates are compared as strings, as in the source, so dates with different offsets are not in order of time; records with missing fields are not modelled.
