# Chinese Dynasty Timeline — a Dafny model

This project models the behaviour of the ChineseDynastyTimeline web application. The application is an interactive
timeline of seven Chinese eras, Qin to Qing. Each era has panels: major events, cultural treasures, a quiz and four
small history games. A decorative particle background changes with the era in focus.

The model covers:

- the era table and the timeline layout: the year range, the year-to-pixel map, the card widths, the scroll buttons
  and the theme key (`dynasties.dfy`, `timeline.dfy`);
- the particle background: theme palettes, spawning a particle from random draws, the per-frame update, and the
  canvas life cycle (`particles.dfy`);
- the game shell and its four games (`games_shell.dfy`, `timeline_game.dfy`, `matching_game.dfy`,
  `puzzle_game.dfy`, `memory_game.dfy`):
  - timeline sorting by drag and drop;
  - person/achievement matching;
  - the poem puzzle;
  - the memory card game;
- the interactive quiz (`quiz.dfy`);
- the events panel and the treasures panel (`events.dfy`, `artifacts.dfy`).

`js.dfy` models the JavaScript built-ins the components rely on:

- `indexOf`, `splice`, `filter` and `join`;
- truthiness;
- the truncating `%`;
- number-to-string conversion;
- exact ratios and `Math.round`ed percentages.

`seqs.dfy` holds general facts about sequences.

Each component's form follows the source:

- Components whose handlers update React state step by step are classes. Their fields are the `useState`
  variables and their methods carry `modifies this`. These are the timeline page, the particle canvas, the game
  shell, the four games and the quiz.
- The two panels that only filter and look up data are datatypes and functions.
- A delayed `setTimeout` body is a separate method, for example `ResolveFlip`, `ClearSelections` and `Advance`.
  A counter or flag records that such a method is pending.
- `Date.now()` is a parameter `now`.
- `Math.random()` draws are parameters.
- A shuffle's result is an input that is required to be a permutation of what is shuffled.

## Model

| member | source | states |
|---|---|---|
| Dynasties.TableInvariants | src/data/dynasties.ts:21-155 | seven eras; every duration is end minus start; every span is non-empty; the ids are distinct; the starts come in order |
| Dynasties.SongYuanOverlap | src/data/dynasties.ts:80-104 | Yuan starts (1271) before Song ends (1279), so the eras are not disjoint |
| Timeline.MinStart | src/components/Timeline.tsx:16 | the result is at most every start year and equals one of them |
| Timeline.MaxEnd | src/components/Timeline.tsx:17 | the result is at least every end year and equals one of them |
| Timeline.ComputeLayout | src/components/Timeline.tsx:16-20 | a layout exists iff the list is non-empty; its bounds are the attained minimum start and maximum end; total years is max minus min; width is 3 px per year |
| Timeline.Position | src/components/Timeline.tsx:22-24 | the position is `NaN` exactly when the range is empty |
| Timeline.PositionLinear | src/components/Timeline.tsx:22-24 | for a non-empty range, the position is `(year - minYear) * 3` exactly |
| Timeline.PositionEndsAndOrder | src/components/Timeline.tsx:22-24 | the first year maps to 0 and the last to the full width; the map is strictly increasing |
| Timeline.MaxPx | src/components/Timeline.tsx:182 | `Math.max` is at least both operands and equals one of them; a `NaN` operand gives `NaN` |
| Timeline.CardRectClamped | src/components/Timeline.tsx:171-182 | a card's left edge is its start position; its width is the larger of span and 160 px, so never under 160 |
| Timeline.CardRect | src/components/Timeline.tsx:171-182 | a card's left edge and width, `Math.max(end - left, 160)`; its placement is stated by `Timeline.CardRectClamped` and `Timeline.QinCardWidened` |
| Timeline.ShippedLayout | src/components/Timeline.tsx:16-20 | the shipped table gives -221 to 1912: 2133 years and 6399 px |
| Timeline.LayoutOfBounds | src/components/Timeline.tsx:16-20 | when one era starts no later and one ends no earlier than every era, the layout runs from that start to that end |
| Timeline.MarkersOnTimeline | src/components/Timeline.tsx:155-159 | every fixed year marker from -200 to 1800 falls within [0, 6399] |
| Timeline.QinCardWidened | src/components/Timeline.tsx:171-182 | Qin's 45 px span is widened to the 160 px minimum at offset 0 |
| Timeline.ScrollButtons | src/components/Timeline.tsx:26-31 | left iff scrolled past 0; right iff short of `scrollWidth - clientWidth` |
| Timeline.ScrollButtonsShown | src/components/Timeline.tsx:26-31 | content that fits shows no button at offset 0; wider content shows one; at the far end only the left one shows |
| Timeline.ThemeKey | src/components/Timeline.tsx:58 | the selected era's id if truthy, else the hovered era's id if truthy, else `'default'`; never empty |
| Js.Truthy | src/components/Timeline.tsx:58 | a string in a boolean position, as in the `||` chain here and in `handleDrop`'s `if (!draggedItem)` (HistoricalGames.tsx:239): only a missing value and the empty string are falsy; used by `Timeline.ThemeKey` and `TimelineGame.TimelineSortGame.HandleDrop` |
| Timeline.SelectedWins | src/components/Timeline.tsx:58 | for a shipped era, selecting it sets the theme whatever is hovered |
| Timeline.TimelineView.CurrentTheme | src/components/Timeline.tsx:58 | the view's theme key, `ThemeKey` of its selected and hovered eras; what that key is is stated by `Timeline.ThemeKey` and `Timeline.SelectedWins` |
| Timeline.TimelineView.constructor | src/components/Timeline.tsx:9-13 | nothing selected or hovered; left button hidden, right button shown |
| Timeline.TimelineView.CheckScrollButtons | src/components/Timeline.tsx:26-31 | without a mounted container nothing changes; otherwise the flags are those of the container's metrics |
| Timeline.TimelineView.Select | src/components/Timeline.tsx:188 | the clicked era becomes selected and drives the theme |
| Timeline.TimelineView.CloseDetail | src/components/Timeline.tsx:231 | the selection clears; the theme falls back to the hovered era |
| Timeline.TimelineView.Hover | src/components/Timeline.tsx:189 | the hovered era becomes the one passed; nothing else changes |
| Particles.GetThemeConfig | src/components/ParticleBackground.tsx:23-42 | every palette has exactly 3 colours; an unknown key gives the default config, a listed key a config of its own |
| Particles.ErasHaveThemes | src/components/ParticleBackground.tsx:23-42 | every shipped era has its own palette; `'default'` gets the star-shaped fallback |
| Particles.Spread | src/components/ParticleBackground.tsx:46-47 | a draw in [0,1) times a side length lies in [0, n), or is 0 when n is 0 |
| Particles.PaletteIndex | src/components/ParticleBackground.tsx:53 | `Math.floor(r * length)` is a valid palette index |
| Particles.CreateParticle | src/components/ParticleBackground.tsx:44-55 | x on the canvas width; y on the canvas height; vx and vy in [-0.25, 0.25); size in [1, 4); opacity in [0.2, 0.7); the theme's shape; a palette colour |
| Particles.Clamp | src/components/ParticleBackground.tsx:138 | the result lies in [lo, hi] and leaves values already inside unchanged |
| Particles.Step | src/components/ParticleBackground.tsx:127-138 | after a frame the opacity is in [0.1, 0.7] whatever the random delta; size, shape and colour are kept |
| Particles.StepMovesAndBounces | src/components/ParticleBackground.tsx:129-134 | the position moves by the velocity without clamping; a velocity component is negated iff the new coordinate is off that side of the canvas |
| Particles.AxisKeepsEnvelope | src/components/ParticleBackground.tsx:129-134 | one axis of the move and bounce keeps a particle within one speed of the canvas, heading back when outside |
| Particles.StepKeepsContained | src/components/ParticleBackground.tsx:127-138 | on a fixed canvas a contained particle stays contained after a frame |
| Particles.Run | src/components/ParticleBackground.tsx:124-146 | one `Step` per animation frame, one opacity draw each, on a canvas of fixed size; what it keeps is stated by `Particles.RunStaysContained` |
| Particles.SpawnedContained | src/components/ParticleBackground.tsx:44-55 | a freshly spawned particle is contained |
| Particles.RunStaysContained | src/components/ParticleBackground.tsx:124-146 | after any number of frames on a fixed canvas the particle stays contained and its opacity stays in [0.1, 0.7] |
| Particles.BounceAtLeftEdge | src/components/ParticleBackground.tsx:129-133 | a particle on the canvas whose move crosses the left edge has its horizontal speed negated, and the next frame takes it back to its starting x, still heading right |
| Particles.Populate | src/components/ParticleBackground.tsx:122 | a fresh array of exactly 50 particles, slot i spawned from draw i |
| Particles.ParticleCanvas.Mount | src/components/ParticleBackground.tsx:104-146 | the canvas takes the window size and the key's theme; 50 new particles are spawned; a frame is requested |
| Particles.ParticleCanvas.Tick | src/components/ParticleBackground.tsx:124-143 | every particle takes one `Step` against the current canvas size; after unmount nothing moves |
| Particles.ParticleCanvas.Resize | src/components/ParticleBackground.tsx:111-117 | the canvas takes the window size while mounted; the particles stay where they are |
| Particles.ParticleCanvas.ChangeTheme | src/components/ParticleBackground.tsx:104-154 | a new theme key re-runs the effect: new theme, window size and 50 newly spawned particles |
| Particles.ParticleCanvas.Unmount | src/components/ParticleBackground.tsx:148-153 | the pending frame is cancelled and the canvas stops |
| Games.ElapsedSeconds | src/components/HistoricalGames.tsx:255 | `Math.floor((now - start) / 1000)`: the whole seconds elapsed, bracketed in milliseconds |
| Games.GameShell.constructor | src/components/HistoricalGames.tsx:19-21 | no game selected; score 0/0; not playing |
| Games.GameShell.StartGame | src/components/HistoricalGames.tsx:58-62 | the game is selected and playing with a zero score, so no result is shown |
| Games.GameShell.EndGame | src/components/HistoricalGames.tsx:64-67 | the score is recorded and play stops; the result shows iff the total is positive |
| Games.GameShell.ResetGame | src/components/HistoricalGames.tsx:69-73 | back to the choice screen with a zero score and no result |
| Games.GameShell.ShowResult | src/components/HistoricalGames.tsx:161 | the result panel shows when play has stopped and the round had questions; its value after each transition is in the ensures of `Games.GameShell.StartGame`, `EndGame` and `ResetGame` |
| Games.ResultTier | src/components/HistoricalGames.tsx:164-165 | the panel's icon by the ratio of right answers; its thresholds are stated on counts by `Games.TierByCounts` and its order by `Games.TierMonotone` |
| Games.TierByCounts | src/components/HistoricalGames.tsx:161-165 | 🏆 iff correct/total ≥ 0.8; 🎖️ iff it is in [0.6, 0.8); 📚 below 0.6; stated on integer counts |
| Games.TierMonotone | src/components/HistoricalGames.tsx:161-165 | more correct answers never give a lower tier; full marks give 🏆 and none give 📚 |
| Games.Percentage | src/components/HistoricalGames.tsx:170 | `Math.round((correct / total) * 100)`; its range is stated by `Games.PercentageBounds` |
| Games.PercentageBounds | src/components/HistoricalGames.tsx:170 | the rounded percentage lies in [0, 100]; full marks give 100 and none give 0 |
| Games.TimeLabelSplits | src/components/HistoricalGames.tsx:173 | minutes times 60 plus seconds is the time spent, with seconds in [0, 60) |
| Games.Minutes | src/components/HistoricalGames.tsx:173 | `Math.floor(timeSpent / 60)`; with `Games.Seconds` it splits the time, as `Games.TimeLabelSplits` states |
| Games.Seconds | src/components/HistoricalGames.tsx:173 | `timeSpent % 60` with JavaScript's remainder; its range is stated by `Games.TimeLabelSplits` |
| TimelineGame.TimelineEvents | src/components/HistoricalGames.tsx:192-216 | the five events of the sort game per era, Qin's for any other key; stated by `TimelineGame.EventTables` |
| TimelineGame.EventTables | src/components/HistoricalGames.tsx:192-216 | five events per era with distinct ids and years; an unknown era gets Qin's |
| TimelineGame.SortByYear | src/components/HistoricalGames.tsx:253 | `events.sort((a, b) => a.year - b.year)` as a stable insertion sort; stated by `TimelineGame.SortByYearFacts` and `TimelineGame.ChronologicalIsUnique` |
| TimelineGame.SortByYearFacts | src/components/HistoricalGames.tsx:253 | sorting by year gives a sorted permutation of the events, with the same multiset of ids |
| TimelineGame.ChronologicalIsUnique | src/components/HistoricalGames.tsx:253 | with distinct years there is only one chronological order, so the answer key does not depend on the sort algorithm |
| TimelineGame.QinAnswer | src/components/HistoricalGames.tsx:194-200 | Qin's answer key is 1, 2, 4, 3, 5 (the Great Wall, -214, precedes the burning of books, -213) |
| TimelineGame.Drop | src/components/HistoricalGames.tsx:241-246 | the order after a drop: the dragged id spliced out and back in at the target's index; stated by `TimelineGame.DropMoves` |
| TimelineGame.DropMoves | src/components/HistoricalGames.tsx:241-246 | a drop keeps length and contents; the dragged id lands at the target's old index; the others keep their relative order; dropping onto itself changes nothing |
| TimelineGame.AllOrNothing | src/components/HistoricalGames.tsx:254 | the score is the number of events iff the order is the chronological one, else 0 |
| TimelineGame.TimelineCorrect | src/components/HistoricalGames.tsx:253-254 | the number of events if every id is at its chronological place, else 0; stated by `TimelineGame.AllOrNothing` |
| TimelineGame.TimelineSortGame.Start | src/components/HistoricalGames.tsx:219-227 | the shuffled events and their ids as the order; the clock starts; nothing is dragged |
| TimelineGame.TimelineSortGame.DragStart | src/components/HistoricalGames.tsx:229-231 | the dragged id is recorded; nothing else changes |
| TimelineGame.TimelineSortGame.HandleDrop | src/components/HistoricalGames.tsx:237-250 | without a truthy dragged id nothing changes; otherwise the order becomes `Drop` of the old order and the drag clears |
| TimelineGame.TimelineSortGame.CheckAnswer | src/components/HistoricalGames.tsx:252-258 | the event list is sorted in place; the score is all-or-nothing out of the number of events, with the elapsed seconds |
| MatchingGame.MatchingPairs | src/components/HistoricalGames.tsx:319-340 | the person/achievement pairs per era, Qin's for any other key; stated by `MatchingGame.PairTables` |
| MatchingGame.PairTables | src/components/HistoricalGames.tsx:319-340 | four pairs per era; no person and no achievement repeats; names are non-empty; an unknown era gets Qin's |
| MatchingGame.Toggle | src/components/HistoricalGames.tsx:353 | clicking the selected item deselects it; clicking another selects that one |
| MatchingGame.MatchingRound.Start | src/components/HistoricalGames.tsx:343-349 | the era's pairs; no matches and no selection; the clock starts |
| MatchingGame.MatchingRound.HandlePersonClick | src/components/HistoricalGames.tsx:351-354 | a matched person is ignored; otherwise the person selection toggles |
| MatchingGame.MatchingRound.HandleAchievementClick | src/components/HistoricalGames.tsx:356-378 | a matched achievement is ignored; without a person the selection toggles; a right pair is appended and both selections clear, ending with full marks on the last pair; a wrong pair schedules the clearing |
| MatchingGame.MatchingRound.ClearSelections | src/components/HistoricalGames.tsx:372-375 | the delayed clearing empties both selections and nothing else |
| MatchingGame.MatchesWithinPairs | src/components/HistoricalGames.tsx:367-370 | matches never outnumber pairs; when the counts agree every pair is matched |
| PuzzleGame.PoemData | src/components/HistoricalGames.tsx:480-486 | the line of four words per era, Qin's for any other key; stated by `PuzzleGame.PoemTables` |
| PuzzleGame.PoemTables | src/components/HistoricalGames.tsx:480-486 | four distinct words per line; an unknown era gets Qin's line |
| PuzzleGame.Move | src/components/HistoricalGames.tsx:499-504 | `moveWord`: the word at `from` spliced out and back in at `to`; stated by `PuzzleGame.MoveLeftSwaps` |
| PuzzleGame.MoveLeftSwaps | src/components/HistoricalGames.tsx:499-504 | moving word i to i-1 swaps it with its left neighbour and keeps the words |
| PuzzleGame.SolvedIffOriginal | src/components/HistoricalGames.tsx:507 | for a rearrangement of the line, the score is 1 iff the words read as the original |
| PuzzleGame.PuzzleCorrect | src/components/HistoricalGames.tsx:507 | 1 if every word is at its place in the original line, else 0; stated by `PuzzleGame.SolvedIffOriginal` |
| PuzzleGame.PoemPuzzle.Start | src/components/HistoricalGames.tsx:489-497 | the era's line and the shuffled order; the clock starts |
| PuzzleGame.PoemPuzzle.MoveWord | src/components/HistoricalGames.tsx:499-504 | the order becomes the splice-out-and-in of the old one and keeps the words |
| PuzzleGame.PoemPuzzle.ClickWord | src/components/HistoricalGames.tsx:523-525 | the first word does not move; any other swaps with its left neighbour |
| PuzzleGame.PoemPuzzle.CheckAnswer | src/components/HistoricalGames.tsx:506-510 | one point out of one iff the order is the original, with the elapsed seconds |
| MemoryGame.MemoryCards | src/components/HistoricalGames.tsx:556-562 | the four symbols per era, Qin's for any other key; stated by `MemoryGame.MemoryTables` |
| MemoryGame.Deck | src/components/HistoricalGames.tsx:567-576 | the doubled symbol list as cards numbered by position, face down and unmatched, twice as many as symbols; the rest is stated by `MemoryGame.DeckFacts` |
| MemoryGame.DeckFacts | src/components/HistoricalGames.tsx:567-576 | the deck has distinct ids, all face down and unmatched, and holds each symbol twice as often as the list |
| MemoryGame.MemoryTables | src/components/HistoricalGames.tsx:556-562 | four distinct symbols per era, so eight cards with each symbol exactly twice; an unknown era gets Qin's |
| MemoryGame.Find | src/components/HistoricalGames.tsx:588 | `cards.find(c => c.id === cardId)`: the first card with the id, or none; stated by `MemoryGame.FindFacts` and `MemoryGame.FindUnique` |
| MemoryGame.FindFacts | src/components/HistoricalGames.tsx:588 | `cards.find` gives nothing iff no card has the id, else a card of the deck with that id |
| MemoryGame.FindUnique | src/components/HistoricalGames.tsx:599-600 | with distinct ids, finding a card's id gives that card |
| MemoryGame.MapWhere | src/components/HistoricalGames.tsx:593-595 | the map changes exactly the cards whose id is listed |
| MemoryGame.MarkAddsUnmatched | src/components/HistoricalGames.tsx:604-608 | marking cards matched raises the matched count by the unmatched ones among them |
| MemoryGame.AllMatchedCount | src/components/HistoricalGames.tsx:612 | the matched count equals the deck size iff every card is matched |
| MemoryGame.ShuffledDeckBoard | src/components/HistoricalGames.tsx:567-581 | any shuffle of a fresh deck is a consistent board with no match |
| MemoryGame.FlipUpKeepsBoard | src/components/HistoricalGames.tsx:590-595 | turning up an unmatched, unflipped card keeps the board consistent |
| MemoryGame.ClickKeepsBoard | src/components/HistoricalGames.tsx:586-595 | a click that none of the three guards ignores turns up an unmatched card and keeps the board consistent |
| MemoryGame.MatchAddsTwo | src/components/HistoricalGames.tsx:603-611 | marking the two distinct unmatched flipped cards matched raises the matched count by exactly two |
| MemoryGame.MatchKeepsBoard | src/components/HistoricalGames.tsx:603-611 | marking the two flipped cards matched is consistent with one more match |
| MemoryGame.UnflipKeepsBoard | src/components/HistoricalGames.tsx:618-624 | turning the flipped cards back keeps the board consistent |
| MemoryGame.MemoryRound.Start | src/components/HistoricalGames.tsx:565-583 | the shuffled deck; nothing flipped; no matches; the clock starts |
| MemoryGame.MemoryRound.HandleCardClick | src/components/HistoricalGames.tsx:585-601 | ignored with two cards up, a card already up or a matched card; otherwise the card turns up and joins the flipped list |
| MemoryGame.MemoryRound.ResolveFlip | src/components/HistoricalGames.tsx:602-625 | equal symbols mark both matched and count a match; unequal ones turn both back; either way the flipped list empties; the game ends iff the matches reach half the deck, and then every card is matched |
| Quiz.QuizData | src/components/InteractiveQuiz.tsx:26-221 | the questions of each of the eight quiz eras, none for any other key; stated by `Quiz.QuizTables` |
| Quiz.QuizTables | src/components/InteractiveQuiz.tsx:26-221 | an era has no questions iff it is not one of the eight listed; otherwise two or three well-formed questions with in-range answers and distinct ids |
| Quiz.DifficultyStars | src/components/InteractiveQuiz.tsx:383 | one to three stars |
| Quiz.DifficultyColor | src/components/InteractiveQuiz.tsx:263-270 | `getDifficultyColor`: the badge gradient of each difficulty, blue for any other; stated by `Quiz.DifficultyBadges` |
| Quiz.DifficultyLabel | src/components/InteractiveQuiz.tsx:379-380 | the badge text 简单, 中等, and 困难 for anything else; stated by `Quiz.DifficultyBadges` |
| Quiz.DifficultyBadges | src/components/InteractiveQuiz.tsx:263-270 | easy, medium and hard give 1, 2 and 3 stars and different colours and labels; anything else gets the blue colour and 3 stars |
| Quiz.GetScoreLevel | src/components/InteractiveQuiz.tsx:272-277 | the level of `(score / total) * 100` at 90, 70 and 50; stated on counts by `Quiz.ScoreLevelByCounts` and in order by `Quiz.ScoreLevelMonotone` |
| Quiz.ScoreLevelByCounts | src/components/InteractiveQuiz.tsx:272-277 | the level thresholds ≥ 90 %, ≥ 70 % and ≥ 50 %, stated on integer counts |
| Quiz.ScoreLevelMonotone | src/components/InteractiveQuiz.tsx:272-277 | a higher score never gives a lower level; full marks give the top level and none the bottom |
| Quiz.InteractiveQuiz.constructor | src/components/InteractiveQuiz.tsx:19-24 | the initial state: first question, nothing selected, score 0, no answers |
| Quiz.InteractiveQuiz.HandleAnswerSelect | src/components/InteractiveQuiz.tsx:226-228 | the clicked option becomes the selection; nothing else changes |
| Quiz.InteractiveQuiz.HandleNextQuestion | src/components/InteractiveQuiz.tsx:230-241 | does nothing without a selection; otherwise appends whether the answer was right, adds 1 iff it was, shows the result and schedules the advance |
| Quiz.InteractiveQuiz.Advance | src/components/InteractiveQuiz.tsx:243-251 | before the last question, moves on and clears the selection and result; on the last, completes the quiz |
| Quiz.InteractiveQuiz.ResetQuiz | src/components/InteractiveQuiz.tsx:254-261 | every field returns to its initial value |
| Quiz.ScoreBounded | src/components/InteractiveQuiz.tsx:233-251 | the score is at most the answers, which are at most the questions; on completion every question is answered and the percentage is in [0, 100] |
| Quiz.InteractiveQuiz.Percentage | src/components/InteractiveQuiz.tsx:314 | the completion screen's `Math.round((score / questions.length) * 100)`; its range on completion is stated by `Quiz.ScoreBounded` |
| Quiz.InteractiveQuiz.Level | src/components/InteractiveQuiz.tsx:297 | the completion screen's `getScoreLevel(score, questions.length)`; its thresholds and order are stated by `Quiz.ScoreLevelByCounts` and `Quiz.ScoreLevelMonotone` |
| Events.EventsData | src/components/HistoricalEvents.tsx:24-123 | the three events of Qin, Han and Tang, Qin's for any other key; stated by `Events.EventTables` and `Events.ShippedErasFallBack` |
| Events.EventTables | src/components/HistoricalEvents.tsx:24-123 | three events per era with distinct ids, a declared type, a rating from 1 to 5 and participants; an unknown era gets Qin's |
| Events.ShippedErasFallBack | src/components/HistoricalEvents.tsx:123 | Song, Yuan, Ming and Qing have no entry and all list Qin's events |
| Events.FilteredEvents | src/components/HistoricalEvents.tsx:127 | every event under `all`, else those of the chosen type; stated by `Events.FilteredEventsFacts` |
| Events.FilteredEventsFacts | src/components/HistoricalEvents.tsx:127 | the shown list is an order-preserving subsequence; an event shows iff it is the era's and the filter is `all` or its type; `all` shows the list unchanged |
| Events.EventIcon | src/components/HistoricalEvents.tsx:129-138 | the icon of each type, the calendar for any other; stated by `Events.IconsAndColors` |
| Events.EventColor | src/components/HistoricalEvents.tsx:140-149 | the gradient of each type, blue for any other; stated by `Events.IconsAndColors` |
| Events.IconsAndColors | src/components/HistoricalEvents.tsx:129-149 | the five types get five different icons and gradients; the calendar icon and blue gradient are used exactly for undeclared types |
| Events.FilterLabel | src/components/HistoricalEvents.tsx:176-180 | the caption of each filter button, 灾难 past the first five keys; stated by `Events.BadgeMatchesFilterLabel` |
| Events.TypeBadge | src/components/HistoricalEvents.tsx:333-336 | the detail view's type badge, 灾难事件 past the first four types; stated by `Events.BadgeMatchesFilterLabel` |
| Events.BadgeMatchesFilterLabel | src/components/HistoricalEvents.tsx:333-336 | a declared type's detail badge is its button caption plus 事件; the six captions differ |
| Events.FormatYear | src/components/HistoricalEvents.tsx:151-153 | the label starts with 公元 and ends with 年; 前 follows exactly for years ≤ 0, year 0 included |
| Events.FormatYearShowsYear | src/components/HistoricalEvents.tsx:151-153 | the digits between the prefix and 年 read back as the year when it is positive, and as its absolute value otherwise |
| Events.FormatYearInjective | src/components/HistoricalEvents.tsx:151-153 | two different years never print alike |
| Events.Stars | src/components/HistoricalEvents.tsx:225-231 | five stars, star i filled when i is below the importance; stated by `Events.StarsShowImportance` |
| Events.StarsShowImportance | src/components/HistoricalEvents.tsx:225-231 | a rating from 1 to 5 fills exactly that many of the five stars, the first ones |
| Events.ParticipantSummary | src/components/HistoricalEvents.tsx:237-238 | the first two names joined by ", ", with "..." iff there are more than two |
| Events.Mount | src/components/HistoricalEvents.tsx:21-22 | the filter is `all`, so every event is listed, and none is opened |
| Events.SetFilter | src/components/HistoricalEvents.tsx:167 | the filter changes; an opened event stays open |
| Events.Select | src/components/HistoricalEvents.tsx:191 | a listed event clicked is opened |
| Events.Close | src/components/HistoricalEvents.tsx:271 | the detail view closes |
| Events.HighlightIsSelection | src/components/HistoricalEvents.tsx:197 | among the listed events, the one drawn enlarged (same id) is exactly the opened one |
| Artifacts.ArtifactsData | src/components/CulturalArtifacts.tsx:24-213 | the artifacts of the eight eras with an entry, none for any other key; stated by `Artifacts.ArtifactTables`, `Artifacts.UnknownEraEmpty` and `Artifacts.ShippedErasWithArtifacts` |
| Artifacts.ArtifactTables | src/components/CulturalArtifacts.tsx:24-212 | every artifact has one of the six declared categories; ids within an era differ |
| Artifacts.UnknownEraEmpty | src/components/CulturalArtifacts.tsx:213 | an era has artifacts iff it is one of the eight with an entry; any other gets an empty list, not another era's |
| Artifacts.ShippedErasWithArtifacts | src/components/CulturalArtifacts.tsx:213 | of the seven timeline eras only Qin, Han and Tang have treasures |
| Artifacts.FilteredArtifacts | src/components/CulturalArtifacts.tsx:217 | every artifact under `all`, else those of the chosen category; stated by `Artifacts.FilteredArtifactsFacts` |
| Artifacts.FilteredArtifactsFacts | src/components/CulturalArtifacts.tsx:217 | the grid is an order-preserving subsequence; an artifact shows iff it is the era's and the filter is `all` or its category; `all` shows all |
| Artifacts.CategoryColor | src/components/CulturalArtifacts.tsx:231-241 | the gradient of each category, gray for any other; stated by `Artifacts.CategoryColors` |
| Artifacts.CategoryColors | src/components/CulturalArtifacts.tsx:231-241 | six different gradients; the gray one is used exactly for unlisted categories |
| Artifacts.FilterLabel | src/components/CulturalArtifacts.tsx:266-271 | the caption of each filter button, 珍宝 past the first six keys; stated by `Artifacts.Captions` |
| Artifacts.CategoryLabel | src/components/CulturalArtifacts.tsx:319-323 | the caption on a card, 珍宝 past the first five categories; stated by `Artifacts.Captions` |
| Artifacts.Captions | src/components/CulturalArtifacts.tsx:319-323 | button and card captions differ between categories; anything unlisted is captioned 珍宝 like a treasure |
| Artifacts.Mount | src/components/CulturalArtifacts.tsx:21-22 | the filter is `all`, so every artifact shows, and none is opened |
| Artifacts.SetFilter | src/components/CulturalArtifacts.tsx:255 | the filter changes; an opened artifact stays open |
| Artifacts.Select | src/components/CulturalArtifacts.tsx:283 | clicking a shown card opens its artifact |
| Artifacts.Close | src/components/CulturalArtifacts.tsx:348 | the close button resets the selection to none |
| Artifacts.NoEntryNothingShown | src/components/CulturalArtifacts.tsx:213-217 | for an era without an entry the grid is empty under every filter and nothing can be open |
| Js.IndexOf | src/components/HistoricalGames.tsx:242-243 | the first index holding the value, or -1 iff it is absent |
| Js.RemoveAt | src/components/HistoricalGames.tsx:245 | `splice(i, 1)` removes one element when the clamped start is in range and none when it is at the end |
| Js.InsertAt | src/components/HistoricalGames.tsx:246 | `splice(i, 0, x)` adds one element, x, at the clamped index |
| Js.InsertRemoved | src/components/HistoricalGames.tsx:501-502 | removing at k and inserting the element back at k restores the list |
| Js.Filter | src/components/HistoricalEvents.tsx:127 | `Array.filter`: no longer than its input and every kept element passes; order and membership are stated by `Js.FilterIsSubsequence` and `Js.FilterMembership` |
| Js.Rem | src/components/HistoricalGames.tsx:173 | JavaScript's `%` has the dividend's sign and is Euclidean on non-negative operands |
| Js.RoundedPercent | src/components/HistoricalGames.tsx:170 | `Math.round((a / b) * 100)` as `floor(x + 0.5)`; its range and end points are stated by `Js.RoundedPercentBounds` |
| Js.RoundedPercentBounds | src/components/HistoricalGames.tsx:170 | `Math.round(a / b * 100)` lies in [0, 100] when a ≤ b, with the end points at 0 and b |
| Js.EveryMatches | src/components/HistoricalGames.tsx:254 | `u.every((x, i) => x === v[i])`, also at line 507; on equal lengths it is equality, as `Js.EveryMatchesIsEqual` states |
| Js.EveryMatchesIsEqual | src/components/HistoricalGames.tsx:254 | for arrays of equal length the position-wise `every` holds iff the arrays are equal |
| Js.SpliceStart | src/components/HistoricalGames.tsx:245-246 | the index `splice` starts at: a negative start counts back from the end, and the start is clamped into [0, length]; stated by its ensures and by the contracts of `Js.RemoveAt` and `Js.InsertAt` |
| Js.FilterIsSubsequence | src/components/HistoricalEvents.tsx:127 | `filter` keeps the original order |
| Js.FilterMembership | src/components/HistoricalEvents.tsx:127 | `filter` keeps exactly the members that pass |
| Js.SubsequenceReflexive | src/components/HistoricalEvents.tsx:127 | the unfiltered `all` list is trivially a subsequence of the era's list |
| Js.Join | src/components/HistoricalEvents.tsx:237 | `join(', ')` gives a single name unchanged; the summary it builds is stated by `Events.ParticipantSummary` |
| Js.NatToString | src/components/HistoricalEvents.tsx:152 | the decimal text of a number: non-empty, all digits, no leading zero; stated by `Js.ParseNatToString` |
| Js.ParseNatToString | src/components/HistoricalEvents.tsx:152 | the decimal rendering of a year reads back as the same number |

## Left out

- Drawing is not modelled: JSX markup, icons in the treasures panel, canvas paths such as `drawStar` and the
  layout of the modals are presentation.
- Scheduling is not modelled. Each `requestAnimationFrame` callback is one `Tick`; the first direct call of
  `animate` is the first `Tick`. Each `setTimeout` body is one atomic method, run when the caller chooses.
- Event listeners are reduced to the calls they make (`CheckScrollButtons`, `Resize`). Adding and removing them is
  not modelled.
- Floating point: ratios, positions and percentages are exact rationals (`real`), so rounding error at the
  thresholds (0.8, 0.6, 90 %) is not captured. `Math.round` is `floor(x + 0.5)`.
- `Array.prototype.sort` with `() => Math.random() - 0.5` is not an algorithm here. Its result is an input that
  must be a permutation.
- The answer key's `events.sort` by year is a stable insertion sort on values. With the distinct years of the data,
  any correct sort gives the same result (`ChronologicalIsUnique`).
- Timeline.ComputeLayout: for an empty era list the source computes `Infinity` bounds. The model returns no
  layout. The shipped table is non-empty.
- Timeline.Position: a zero-length range gives `NaN` as in the source. The `Infinity` arithmetic of an empty list
  is not modelled.
- Particles.ParticleCanvas.Mount: the effect's early returns when there is no canvas element or no 2D context (ParticleBackground.tsx:105-109) are not modelled; the model always has a canvas to draw on.
- Particles: the particle objects are mutated in place through `forEach`. Here they are values in the slots of an
  array. The `Math.random()` draws are parameters.
- Time: `Date.now()` is the parameter `now`.
- Memory game card ids `card-${i}` are the natural number i. The stringification is injective, so nothing is lost.
- MemoryGame.MemoryRound.ResolveFlip: the matched branch's timeout in the source maps over `cards` as captured
  before the second card was turned up. That card therefore ends matched but with `isFlipped` still false. The
  model maps over the current cards, so both matched cards end face up. Matched cards are drawn face up either
  way.
- Lookups of the form `table[key] \|\| fallback` would also hit `Object.prototype` keys such as `constructor`.
  The model treats every key that is not listed as unknown.
- Quiz.InteractiveQuiz: the era is fixed when the quiz is created. A change of the `dynasty` prop while the quiz
  stays mounted is not modelled; the source has no effect that resets the state on such a change.
- `HandleNextQuestion` requires a non-empty question list, no result on show and an uncompleted quiz. The source
  renders the button only in that state.
- Progress-bar widths and the style strings other than the colour lookups are not modelled.
- The prose fields of events and treasures are not modelled: descriptions, consequences, significance, image URLs,
  discovery and location.
- The context components are not part of this model: `DynastyCard`, `DynastyDetail`, `CharacterNetwork` and
  `HistoricalMap`.
