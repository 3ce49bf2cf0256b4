# Recursive consoles: a verified model

This project models the logic at the core of a collection of "recursive
cognition" visual consoles. The collection contains:

- a Python generator of a layered attribution graph (the QKOV drift map);
- three plain JavaScript state classes:
  - a hallucination detector;
  - a drawer-like thought tree;
  - an event-driven echo-reflection system;
- eleven React components. Their state transitions are modelled here; their
  rendering is not.

Each source file has one Dafny module. Small shared helpers live in `Common`
(`common.dfy`).

Each part of the source takes the form it takes in Dafny:

- Code that mutates an object's fields in place becomes a `class`:
  - the Python mapper;
  - the JavaScript classes;
  - the React components whose hooks are updated step by step, namely the two
    mirror consoles, the self-render console and the reflection console.
- Code that rebuilds immutable values becomes datatypes and functions:
  - the drawer, fractal and thought-web trees and graphs;
  - the depth-sync, collapse-simulator and identity-signature state machines;
  - the echo chamber.
- Loops in the source become methods with loop invariants. Each method is
  proved against a specification function, and the properties are proved as
  lemmas about that function.

Randomness, clock readings and timers are never computed. Instead:

- every `Math.random`/`np.random` draw is a parameter, or a finite stream of
  draws;
- every id or timestamp taken from the clock is left out;
- every `setTimeout`/`setInterval` callback becomes an explicit step method
  or step function that the caller applies.

Real-valued quantities (entropy, drift, depth, probabilities) are Dafny
`real`s. Integers are unbounded, which is exact for every counter involved.

## Model

| member | source | states |
|---|---|---|
| QkovMap.ClassOf | code/qkov_recursive_map.py:119-125 | the class is strong exactly below entropy 0.3, weak exactly from 0.7, moderate in between |
| QkovMap.WeightedGlyph | code/qkov_recursive_map.py:158-161 | the fallback draw picks decay, feedback, contradiction and classifier with weights 0.4, 0.3, 0.2 and 0.1 (cumulative cuts at 0.4, 0.7 and 0.9) |
| QkovMap.AssignGlyph | code/qkov_recursive_map.py:140-161 | first match wins: decay above 0.7; else feedback on a middle level with entropy in [0.3, 0.7]; else contradiction at a position divisible by 3 above 0.4; else classifier at level 1, even position; else the weighted draw; each glyph comes only from its own rule or its draw band |
| QkovMap.GlyphDrawMattersOnlyAsFallback | code/qkov_recursive_map.py:140-161 | whenever one of the four rules applies, the random draw does not change the glyph |
| QkovMap.BaseEntropy | code/qkov_recursive_map.py:112-114 | position/N + level/depth capped at 1, and non-negative for positive N |
| QkovMap.GenerateNodeMetadata | code/qkov_recursive_map.py:110-138 | recursion depth is level + 1; entropy is base + noise when that is at most 1 and 1 otherwise, with no lower clamp; loopback density and classifier inertia are their draws clamped to [0, 1]; class and glyph follow the entropy |
| QkovMap.EntropyHasNoLowerClamp | code/qkov_recursive_map.py:117 | a negative noise draw yields a negative entropy: only the upper cap exists |
| QkovMap.SlotOfLevel | code/qkov_recursive_map.py:74-88 | the id LevelStart(L) + p is node p of level L: ids are consecutive from 0 in level order |
| QkovMap.SlotFromInverse | code/qkov_recursive_map.py:74-88 | every id maps to a level and an in-level position below that level's size, and back to the same id |
| QkovMap.SlotLevelIff | code/qkov_recursive_map.py:74-88 | an id lies on level L exactly when it falls in L's block of max(3, N - L) ids |
| QkovMap.SlotBelowDepth | code/qkov_recursive_map.py:75 | every id below the node count lies on one of the depth levels |
| QkovMap.ChooseDistinct | code/qkov_recursive_map.py:104 | choice without replacement: k targets, all from the pool, distinct when the pool is |
| QkovMap.NodeDrift | code/qkov_recursive_map.py:206-209 | node drift is entropy times (1 + level/depth) when that is below 1, and 1 otherwise |
| QkovMap.EdgeDrift | code/qkov_recursive_map.py:221-229 | edge drift is clamped to [0, 1] and is the mean endpoint drift when the noise is zero |
| QkovMap.EdgeWidthBounds | code/qkov_recursive_map.py:296-297 | the width 1.5 (1 - drift) + 0.5 lies in [0.5, 2.0] and shrinks as drift grows |
| QkovMap.LevelRadiusShrinks | code/qkov_recursive_map.py:180 | the ring radius 2 + (depth - level) 2 is at least 4 and strictly decreasing in the level |
| QkovMap.EdgeAlphaBounds | code/qkov_recursive_map.py:516-522 | for a sine value in [-1, 1], the alpha lies between 0.2 and 0.9 times 1 - 0.7 drift, hence in [0.06, 0.9] |
| QkovMap.NextLevelPoolOnNextLevel | code/qkov_recursive_map.py:98-100 | the candidate targets are distinct ids, all on the next level |
| QkovMap.DrawnEdgesAreLayered | code/qkov_recursive_map.py:90-108 | a node below the last level gets 1 to min(3, next level size) edges to distinct next-level nodes; last-level nodes get none |
| QkovMap.EdgeDriftInRange | code/qkov_recursive_map.py:221-232 | every stored edge drift is in [0, 1] and its drawn width in [0.5, 2.0] |
| QkovMap.RecursiveQKOVMapper.constructor | code/qkov_recursive_map.py:25-49 | stores depth, N and the unused drift threshold, then generates the structure, lays out the radii and assigns drift, with every property of those three steps |
| QkovMap.RecursiveQKOVMapper.GenerateRecursiveStructure | code/qkov_recursive_map.py:71-108 | every node sits on its slot with its metadata, and the edges are the drawn, layered ones |
| QkovMap.RecursiveQKOVMapper.AddLevels | code/qkov_recursive_map.py:74-88 | after the node loops every id sits on its slot with metadata from its own draws |
| QkovMap.RecursiveQKOVMapper.AddLevel | code/qkov_recursive_map.py:79-88 | one level appends max(3, N - level) nodes, keeping every earlier node |
| QkovMap.RecursiveQKOVMapper.AddEdges | code/qkov_recursive_map.py:90-108 | every node's out-edges are the ones its draws select |
| QkovMap.RecursiveQKOVMapper.DrawEdgesFrom | code/qkov_recursive_map.py:91-108 | no edges from the last level; otherwise randint(1, min(4, size + 1)) edges to distinct next-level nodes with the drawn weights |
| QkovMap.RecursiveQKOVMapper.NodesAtLevel | code/qkov_recursive_map.py:99-100 | the filter over the nodes returns exactly the ids of the level, in id order |
| QkovMap.RecursiveQKOVMapper.CalculateNodePositions | code/qkov_recursive_map.py:163-197 | every node, and only the nodes, gets the radius of its level's ring |
| QkovMap.RecursiveQKOVMapper.PlaceRing | code/qkov_recursive_map.py:184-195 | the ids of one level get that level's radius; every other entry is kept |
| QkovMap.RecursiveQKOVMapper.AssignDriftValues | code/qkov_recursive_map.py:199-232 | every node gets its drift and classifier flag, then every edge its drift from the final node drifts |
| QkovMap.RecursiveQKOVMapper.EdgeDriftsFrom | code/qkov_recursive_map.py:221-232 | the out-edges of one node get their clamped drift, one per edge, in order |
| HallucinationDetection.MatchCount | dev-consoles/code/hallucination-detection-service.js:225-230 | the loop counts at most one match per key |
| HallucinationDetection.MatchCountCounts | dev-consoles/code/hallucination-detection-service.js:225-230 | over distinct keys the count is the number of keys both patterns hold with equal values, whatever the order |
| HallucinationDetection.MatchCountWithItself | dev-consoles/code/hallucination-detection-service.js:225-230 | a pattern agrees with itself on each of its keys |
| HallucinationDetection.Similarity | dev-consoles/code/hallucination-detection-service.js:218-234 | NaN exactly for two empty patterns; otherwise matches over max(key counts), a fraction between 0 and 1 |
| HallucinationDetection.SimilarityInUnit | dev-consoles/code/hallucination-detection-service.js:233 | the score lies in [0, 1] |
| HallucinationDetection.SimilaritySymmetric | dev-consoles/code/hallucination-detection-service.js:218-234 | for patterns with distinct keys the score is symmetric |
| HallucinationDetection.SimilarityWithItself | dev-consoles/code/hallucination-detection-service.js:218-234 | a non-empty pattern scores 1 against itself |
| HallucinationDetection.ThresholdsOfScore | dev-consoles/code/hallucination-detection-service.js:180-203 | the integer tests used by the model are the comparisons score > 0.6 and score < 0.3 |
| HallucinationDetection.CalculateSimilarity | dev-consoles/code/hallucination-detection-service.js:218-234 | the key loop computes Similarity |
| HallucinationDetection.PatternIndex | dev-consoles/code/hallucination-detection-service.js:289-290 | the biased index is one of the seven mock patterns |
| HallucinationDetection.PatternIndexBias | dev-consoles/code/hallucination-detection-service.js:289-290 | depth 0 draws one of the first three patterns; depth 10 or more draws collapse, linear or recursive |
| HallucinationDetection.SampledPattern | dev-consoles/code/hallucination-detection-service.js:292-296 | the sample has keys type, content, timestamp, depth in that order, with the mock type and content |
| HallucinationDetection.EntropyOfType | dev-consoles/code/hallucination-detection-service.js:308-318 | the table value for a listed type, 0.5 otherwise, always in [0.1, 1.0] |
| HallucinationDetection.ThoughtEntropy | dev-consoles/code/hallucination-detection-service.js:305-319 | a missing or non-string type reads 0.5; every value lies in [0.1, 1.0] |
| HallucinationDetection.MockEntropyIncreases | dev-consoles/code/hallucination-detection-service.js:278-318 | the entropy of the mock patterns strictly rises with their index |
| HallucinationDetection.Lower | dev-consoles/code/hallucination-detection-service.js:251 | lower-casing keeps the length and maps each character |
| HallucinationDetection.CollapseCount | dev-consoles/code/hallucination-detection-service.js:172-186 | the count of low-similarity adjacent pairs is at most the number of pairs |
| HallucinationDetection.NoCollapseWithFewPatterns | dev-consoles/code/hallucination-detection-service.js:172-186 | fewer than four patterns can never reach the limit of three collapses |
| HallucinationDetection.MeanEntropyAtMostOne | dev-consoles/code/hallucination-detection-service.js:150-151 | the mean of stored entropies is at most 1 |
| HallucinationDetection.ShallowNeverHallucinates | dev-consoles/code/hallucination-detection-service.js:143-165 | at depth 4 or less none of the three rules can fire |
| HallucinationDetection.RecursiveHallucinationDetector.constructor | dev-consoles/code/hallucination-detection-service.js:12-30 | depth 0, empty windows, count 0, threshold 0.85, not monitoring, no listeners |
| HallucinationDetection.RecursiveHallucinationDetector.StartMonitoring | dev-consoles/code/hallucination-detection-service.js:35-44 | afterwards the detector is monitoring; a second start changes nothing |
| HallucinationDetection.RecursiveHallucinationDetector.StopMonitoring | dev-consoles/code/hallucination-detection-service.js:49-55 | afterwards the detector is not monitoring; a second stop changes nothing |
| HallucinationDetection.RecursiveHallucinationDetector.OnHallucination | dev-consoles/code/hallucination-detection-service.js:61-67 | a callback is appended and accepted exactly when it is a function |
| HallucinationDetection.RecursiveHallucinationDetector.NotifyHallucination | dev-consoles/code/hallucination-detection-service.js:120-133 | each listener is called once in order, a throwing one included, the log gains exactly those deliveries, then monitoring stops |
| HallucinationDetection.RecursiveHallucinationDetector.DetectThoughtLoop | dev-consoles/code/hallucination-detection-service.js:193-209 | false with fewer than 3 patterns; else true iff the newest is more than 0.6 similar to one of the two before it |
| HallucinationDetection.RecursiveHallucinationDetector.DetectDimensionalCollapse | dev-consoles/code/hallucination-detection-service.js:172-186 | true iff at least 3 adjacent stored pairs are less than 0.3 similar |
| HallucinationDetection.RecursiveHallucinationDetector.DetermineHallucinationState | dev-consoles/code/hallucination-detection-service.js:143-165 | loop above depth 8, or mean entropy above 0.75 above depth 4 with more than 5 self-references, or collapse above depth 8/1.5 |
| HallucinationDetection.RecursiveHallucinationDetector.ScanCronSystem | dev-consoles/code/hallucination-detection-service.js:73-113 | depth grows by one exactly on a draw above 0.7; the sampled pattern and its entropy enter the windows, which keep the 10 and 5 newest; the count rises by one on self-reference; a positive verdict appends one delivery per listener, in order, of the event carrying the new depth, the pattern's entropy, the loop flag, the count and the clock, and stops monitoring; a negative one delivers nothing |
| HallucinationDetection.RecursiveHallucinationDetector.Assess | dev-consoles/code/hallucination-detection-service.js:94-112 | the verdict is the three-rule decision on the stored windows; a positive one appends exactly one delivery of the event per listener and stops monitoring, a negative one changes nothing |
| HallucinationDetection.DeliveriesTo | dev-consoles/code/hallucination-detection-service.js:123-129 | one delivery per listener, the k-th to the k-th listener, all with the same event |
| HallucinationDetection.RecursiveHallucinationDetector.Observe | dev-consoles/code/hallucination-detection-service.js:78-92 | one sample of depth and pattern, recorded in both windows |
| HallucinationDetection.RecursiveHallucinationDetector.RecordPattern | dev-consoles/code/hallucination-detection-service.js:81-92 | the windows keep the 10 and 5 newest entries; the count rises by exactly one iff the content names a self-referential term |
| HallucinationDetection.RecursiveHallucinationDetector.PushPattern | dev-consoles/code/hallucination-detection-service.js:82-83 | push then shift keeps the 10 newest patterns |
| HallucinationDetection.RecursiveHallucinationDetector.PushEntropy | dev-consoles/code/hallucination-detection-service.js:87-88 | push then shift keeps the 5 newest entropies, all in [0.1, 1.0] |
| HallucinationDetection.RecursiveHallucinationDetector.SampleThoughtPattern | dev-consoles/code/hallucination-detection-service.js:275-297 | the sample is the biased mock pattern stamped with the clock and depth |
| HallucinationDetection.RecursiveHallucinationDetector.SampleRecursionDepth | dev-consoles/code/hallucination-detection-service.js:263-268 | the depth rises by one exactly on a draw above 0.7 and never falls |
| HallucinationDetection.RecursiveHallucinationDetector.Reset | dev-consoles/code/hallucination-detection-service.js:324-336 | depth, windows and count are cleared; the monitoring status is kept |
| ThoughtModel.NewThoughtNode | dev-consoles/code/recursive-thought-model.js:10-29 | a new node is closed, childless, parentless, not an echo, not collapsed, never accessed, with entropy in [0, 0.3), stability 1 - 0.1 depth and threshold 0.7 |
| ThoughtModel.ToggleOpen | dev-consoles/code/recursive-thought-model.js:40-52 | flips isOpen and adds one access; entropy stays at most 1 and never decreases from a value at most 1; nothing else changes |
| ThoughtModel.ToggleCanLowerEchoEntropy | dev-consoles/code/recursive-thought-model.js:46-49 | an echo whose entropy was scaled above 1 is pulled back to 1 by its next toggle, so "never decreases" needs entropy at most 1 |
| ThoughtModel.CreateEcho | dev-consoles/code/recursive-thought-model.js:55-73 | the echo is a closed, childless copy "Echo of" the title, id echo-id, half a level deeper, same parent, metadata spread with entropy x1.2, echoes +1, stability x0.9, reflection +0.3 |
| ThoughtModel.Collapse | dev-consoles/code/recursive-thought-model.js:76-87 | the node ends closed, collapsed and childless, remembers its old child count, entropy is half the old one but never below 0.1, stability is 1.5 times the old one but never above 1; nothing else changes |
| ThoughtModel.HasEmergenceIffFourFactors | dev-consoles/code/recursive-thought-model.js:90-102 | a share above 0.6 of the five factors holds exactly when at least four factors hold |
| ThoughtModel.Preorder | dev-consoles/code/recursive-thought-model.js:164-169 | the depth-first visit of a subtree starts at its root and stays inside the arena below it |
| ThoughtModel.Find | dev-consoles/code/recursive-thought-model.js:174-201 | the search returns a node of the subtree carrying the id, or reports that no node of the subtree carries it |
| ThoughtModel.FindAmong | dev-consoles/code/recursive-thought-model.js:192-196 | the loop over the children finds the id in one of their subtrees, or in none |
| ThoughtModel.MaxDepth | dev-consoles/code/recursive-thought-model.js:161-171 | findMaxDepth returns a depth reached in the subtree and at least every depth in it |
| ThoughtModel.MaxDepthAmong | dev-consoles/code/recursive-thought-model.js:164-167 | the running maximum over the children's subtrees bounds them all and is reached or kept |
| ThoughtModel.GetPath | dev-consoles/code/recursive-thought-model.js:105-111 | the path ends with the node, starts at a parentless node and links each entry to the next by parent |
| ThoughtModel.PathFromRoot | dev-consoles/code/recursive-thought-model.js:105-111 | in the system's tree every path starts at the root and has one entry per level |
| ThoughtModel.ReplaceKeepsTree | dev-consoles/code/recursive-thought-model.js:76-87 | replacing a node by one with the same links, or with its children dropped, keeps the tree well formed |
| ThoughtModel.AttachLeafKeepsTree | dev-consoles/code/recursive-thought-model.js:32-37 | adding a childless node as the last (addChild) or first (unshift) child keeps the tree well formed |
| ThoughtModel.WalkEnds | dev-consoles/code/recursive-thought-model.js:282-286 | after the forEach walk the children are one echo of the first old child per old child, followed by the old children |
| ThoughtModel.RecursiveThoughtSystem.constructor | dev-consoles/code/recursive-thought-model.js:131-152 | counter at 2, flags clear, entropy 0, the root holding Interpretation Layer 1 at depth 1, the root opened once, active, and logged |
| ThoughtModel.RecursiveThoughtSystem.CurrentDepth | dev-consoles/code/recursive-thought-model.js:161-171 | the largest node depth reachable from the root, and at least 0 |
| ThoughtModel.RecursiveThoughtSystem.OpenDrawer | dev-consoles/code/recursive-thought-model.js:174-202 | returns true iff a node depth first from the root carries the id; then that node is toggled, active and logged, grows its child when open, empty and below the safe depth (entropy raised), and the glitch and emergence flags latch and are logged; otherwise nothing changes |
| ThoughtModel.RecursiveThoughtSystem.OpenFound | dev-consoles/code/recursive-thought-model.js:176-189 | the found drawer is toggled, made active and logged; it then grows its one child exactly when open, empty and below the safe depth, raising the entropy; the glitch and emergence flags latch and the log holds exactly these lines |
| ThoughtModel.RecursiveThoughtSystem.ToggleAndLog | dev-consoles/code/recursive-thought-model.js:176-181 | the matched node alone is toggled and becomes active, and exactly one drawer line with its title and depth is logged |
| ThoughtModel.RecursiveThoughtSystem.GrowAndCheck | dev-consoles/code/recursive-thought-model.js:183-187 | `autoGenerateChild` then `checkSystemEffects`: the child exactly when the node is open, empty and below the safe depth, then the latched flags, with the log lines of both |
| ThoughtModel.RecursiveThoughtSystem.AutoGenerateChild | dev-consoles/code/recursive-thought-model.js:205-236 | an open, childless node below the safe depth gets exactly one child one level deeper, titled by that depth, logged, and entropy + 0.05 depth capped at 1; otherwise nothing changes |
| ThoughtModel.RecursiveThoughtSystem.AddChild | dev-consoles/code/recursive-thought-model.js:32-37 | the new thought, numbered by the counter, becomes the last child, its parent set and its depth one more than the parent's |
| ThoughtModel.RecursiveThoughtSystem.CheckSystemEffects | dev-consoles/code/recursive-thought-model.js:239-262 | glitch latches once the depth exceeds the safe depth, emergence once entropy exceeds 0.7; each is logged the first time only |
| ThoughtModel.RecursiveThoughtSystem.InjectEcho | dev-consoles/code/recursive-thought-model.js:265-295 | acts once: the walk leaves one echo of the first root child per root child in front of them, safe depth +2, entropy +0.3 capped at 1; a repeat returns false and changes nothing; the frame leaves the id counter, the active thought and the glitch, collapse and emergence flags untouched |
| ThoughtModel.RecursiveThoughtSystem.ProcessNode | dev-consoles/code/recursive-thought-model.js:272-283 | the node's echo is unshifted onto its parent's children, then its own children are walked |
| ThoughtModel.RecursiveThoughtSystem.ForEachProcess | dev-consoles/code/recursive-thought-model.js:282 | forEach fixes the length first and reads the k-th child afresh, so only the first child is processed, once per original child |
| ThoughtModel.RecursiveThoughtSystem.WalkStep | dev-consoles/code/recursive-thought-model.js:282 | each step of the walk reads the first original child again and adds one echo of it in front |
| ThoughtModel.RecursiveThoughtSystem.TriggerCollapse | dev-consoles/code/recursive-thought-model.js:298-324 | acts once: each root child ends collapsed and childless, the root open and otherwise unchanged, glitch cleared, entropy max(0.1, 0.3 x); a repeat returns false and changes nothing; the frame leaves the id counter, the active thought, the safe depth and the echo and emergence flags untouched |
| ThoughtModel.RecursiveThoughtSystem.CollapseNode | dev-consoles/code/recursive-thought-model.js:305-314 | a node below the root collapses before its children are copied, so only the root's children are collapsed |
| ReflectionModel.EventTypeNamed | dev-ui-consoles/code/reflection-model.js:34-42 | a name finds a listener slot only if it is the name of that event type |
| ReflectionModel.EventNamesRoundTrip | dev-ui-consoles/code/reflection-model.js:34-42 | each of the seven event types is found under its own name, so exactly the other names miss |
| ReflectionModel.WithoutId | dev-ui-consoles/code/reflection-model.js:91-93 | the filter keeps, in order, exactly the listeners whose id differs, and never lengthens the list |
| ReflectionModel.WithoutIdShrinks | dev-ui-consoles/code/reflection-model.js:90-94 | removal reports success exactly when some listener of the list carries the id |
| ReflectionModel.WithoutIdUndoesAdd | dev-ui-consoles/code/reflection-model.js:73-97 | removing an id undoes adding a listener under that id |
| ReflectionModel.ThoughtContent | dev-ui-consoles/code/reflection-model.js:158-159 | a missing or empty content is replaced by one of the ten thought patterns; otherwise the content is kept |
| ReflectionModel.Deliveries | dev-ui-consoles/code/reflection-model.js:105-116 | one callback call per listener, in order, each with the same event |
| ReflectionModel.EchoReflectionSystem.constructor | dev-ui-consoles/code/reflection-model.js:10-57 | empty collections, zero metrics, clear flags, seven empty listener lists, the seven configuration values, one log entry and an unheard initialization notice |
| ReflectionModel.EchoReflectionSystem.Initialize | dev-ui-consoles/code/reflection-model.js:62-65 | logs the initialization message and notifies the systemChange listeners of it |
| ReflectionModel.EchoReflectionSystem.AddEventListener | dev-ui-consoles/code/reflection-model.js:73-80 | a known type gets the listener appended under id now + floor(1000 draw), which is returned; an unknown type returns null and changes nothing |
| ReflectionModel.EchoReflectionSystem.RemoveEventListener | dev-ui-consoles/code/reflection-model.js:88-97 | a known type's list is filtered by id and the result says whether it shrank; an unknown type returns false |
| ReflectionModel.EchoReflectionSystem.NotifyListeners | dev-ui-consoles/code/reflection-model.js:104-118 | every listener of a known type is called once, in order, with the event; an unknown type calls nobody |
| ReflectionModel.EchoReflectionSystem.Log | dev-ui-consoles/code/reflection-model.js:124-135 | appends and returns one entry stamped with the clock carrying the message |
| ReflectionModel.EchoReflectionSystem.GenerateThought | dev-ui-consoles/code/reflection-model.js:142-175 | a level-0 thought without connections, carrying the content or a pattern, is appended and the generation is logged |
| ThoughtDrawer.UpdateDrawers | dev-consoles/code/recursive-thought-drawer.tsx:52-107 | the drawers carrying the id flip, nothing below them is visited, and every other drawer keeps its fields; opening one empty below the safe depth gives it one closed, empty, titled child one level deeper and logs the creation, otherwise it logs opened or closed; an absent id changes nothing |
| ThoughtDrawer.UpdateAll | dev-consoles/code/recursive-thought-drawer.tsx:100-104 | `children.map(updateDrawers)`: each child is toggled in the same sense, keeping its id; an absent id changes nothing |
| ThoughtDrawer.UpdateFlipsOne | dev-consoles/code/recursive-thought-drawer.tsx:52-107 | when exactly one drawer carries the id, the open drawers afterwards are the old ones with that id flipped: nothing else opens or closes, and a created child is closed |
| ThoughtDrawer.UpdateAllFlipsOne | dev-consoles/code/recursive-thought-drawer.tsx:100-104 | the same for a list of children holding the id exactly once |
| ThoughtDrawer.FlipsHere | dev-consoles/code/recursive-thought-drawer.tsx:53-96 | the drawer carrying the id flips, and its new child, if any, is closed |
| ThoughtDrawer.UpdateIds | dev-consoles/code/recursive-thought-drawer.tsx:52-107 | after a toggle the ids are the old ones plus exactly those handed out for created children |
| ThoughtDrawer.UpdateAllIds | dev-consoles/code/recursive-thought-drawer.tsx:103 | mapping the toggle over the children keeps their ids and adds exactly the handed-out ones |
| ThoughtDrawer.GrowIds | dev-consoles/code/recursive-thought-drawer.tsx:79-87 | giving an empty drawer one empty child adds exactly the child's id |
| ThoughtDrawer.InjectEcho | dev-consoles/code/recursive-thought-drawer.tsx:121-140 | every drawer of the tree keeps its own fields and gains, in front of its injected children, a closed empty echo half a level deeper titled "Echo of" it |
| ThoughtDrawer.InjectAll | dev-consoles/code/recursive-thought-drawer.tsx:137 | `children.map(injectEcho)`: every child becomes its echoed tree |
| ThoughtDrawer.InjectIds | dev-consoles/code/recursive-thought-drawer.tsx:121-140 | injection doubles the tree, the echoes taking exactly the next ids, one per drawer |
| ThoughtDrawer.InjectAllIds | dev-consoles/code/recursive-thought-drawer.tsx:137 | over a list of children, injection doubles the ids and hands out one fresh id per drawer |
| ThoughtDrawer.CollapseDrawers | dev-consoles/code/recursive-thought-drawer.tsx:158-181 | a depth-0 drawer stays open, its children close and its grandchildren close and lose their children; a drawer at any other depth closes |
| ThoughtDrawer.CollapseIds | dev-consoles/code/recursive-thought-drawer.tsx:158-181 | the collapse only drops drawers: no id is added or repeated |
| ThoughtDrawer.Initial | dev-consoles/code/recursive-thought-drawer.tsx:11-34 | the open root holding the closed first interpretation layer, with unique ids below the generator |
| ThoughtDrawer.MonitorDepth | dev-consoles/code/recursive-thought-drawer.tsx:42-47 | past the safe depth the glitch flag is set and the glitch logged, again on each run; nothing else changes |
| ThoughtDrawer.HandleDrawerToggle | dev-consoles/code/recursive-thought-drawer.tsx:50-113 | an id not in the tree changes nothing; otherwise the tree is toggled in the `UpdateDrawers` sense; the safe depth and the collapse and echo flags stay |
| ThoughtDrawer.ToggleDepthRule | dev-consoles/code/recursive-thought-drawer.tsx:42-47 | with unique ids and d the drawer carrying the id: the depth becomes max(depth, d.depth + 1) exactly when d is closed, childless and below the safe depth, and stays otherwise; one id is handed out exactly then; d's one line is logged, then the glitch line and flag exactly when the depth changed past the safe depth |
| ThoughtDrawer.ToggleSettles | dev-consoles/code/recursive-thought-drawer.tsx:61-64 | with unique ids the toggle is the tree update with d's line and `DepthAfterToggle`, followed by the depth monitor |
| ThoughtDrawer.UpdateOne | dev-consoles/code/recursive-thought-drawer.tsx:52-108 | with the id carried once, the search creates a child exactly when that drawer grows, one level below it, and logs only that drawer's line |
| ThoughtDrawer.UpdateAllOne | dev-consoles/code/recursive-thought-drawer.tsx:100-104 | over a list of children carrying the id once, the same: one created child exactly when the carrying drawer grows, and its one line |
| ThoughtDrawer.DrawerWithId | dev-consoles/code/recursive-thought-drawer.tsx:52-53 | the drawer the search stops at carries the id |
| ThoughtDrawer.ToggleFlipsOnlyTarget | dev-consoles/code/recursive-thought-drawer.tsx:50-113 | with unique ids, a toggle opens or closes exactly the drawer it names and no other |
| ThoughtDrawer.InjectEchoToken | dev-consoles/code/recursive-thought-drawer.tsx:116-150 | the echo flag is set, every drawer of the tree gains an echo, the root's echo takes the next id, the safe depth rises by 2 while the depth stays, and the monitor runs against the new safe depth |
| ThoughtDrawer.EchoPropagated | dev-consoles/code/recursive-thought-drawer.tsx:147-149 | one second later only the propagation message is logged |
| ThoughtDrawer.TriggerCollapse | dev-consoles/code/recursive-thought-drawer.tsx:153-189 | the tree folds under the open root; depth, safe depth and glitch flag stay and the collapse is logged |
| ThoughtDrawer.SystemRestoredStep | dev-consoles/code/recursive-thought-drawer.tsx:185-188 | 1.5 seconds after a collapse the glitch flag clears and the restoration is logged; nothing else changes |
| ThoughtDrawer.FreshIdsKeepUnique | dev-consoles/code/recursive-thought-drawer.tsx:4-7 | ids handed out by the counter are fresh, so adding them keeps the ids unique and below the counter |
| ThoughtDrawer.ToggleKeepsInv | dev-consoles/code/recursive-thought-drawer.tsx:50-113 | a toggle keeps the drawer ids unique |
| ThoughtDrawer.InjectKeepsInv | dev-consoles/code/recursive-thought-drawer.tsx:116-150 | an injection keeps the ids unique and doubles the tree |
| ThoughtDrawer.CollapseKeepsInv | dev-consoles/code/recursive-thought-drawer.tsx:153-189 | a collapse keeps the ids unique and leaves the root open |
| ThoughtDrawer.ToggleGlitch | dev-consoles/code/recursive-thought-drawer.tsx:42-64 | a toggle never lowers the depth; when it raises it, the monitor leaves the glitch flag set exactly if it was set or the new depth passes the safe depth |
| ThoughtDrawer.InjectOnce | dev-consoles/code/recursive-thought-drawer.tsx:260-266 | once injected, the injection button is disabled |
| ThoughtDrawer.ToggleDepthBound | dev-consoles/code/recursive-thought-drawer.tsx:61-64 | a created child is at most one level past the safe depth, so no toggle takes the depth further |
| FractalThoughtVis.NewId | dev-consoles/code/fractal-thought-vis.tsx:73 | a draw in [0, 1) gives an id from 0 to 999 |
| FractalThoughtVis.AddChildToNode | dev-consoles/code/fractal-thought-vis.tsx:75-91 | a thought with the parent id gains the new childless thought as its last child; any other keeps its id, content and number of children |
| FractalThoughtVis.AddChildSize | dev-consoles/code/fractal-thought-vis.tsx:75-91 | the insertion adds exactly one thought per thought carrying the parent id |
| FractalThoughtVis.AddChildAllSize | dev-consoles/code/fractal-thought-vis.tsx:86 | mapping the insertion over the children adds one thought per match among them |
| FractalThoughtVis.HitsIffPresent | dev-consoles/code/fractal-thought-vis.tsx:76 | some thought is reached exactly when the parent id occurs in the tree |
| FractalThoughtVis.AddChildAbsent | dev-consoles/code/fractal-thought-vis.tsx:75-91 | an id that matches no thought leaves the tree as it was |
| FractalThoughtVis.AddChildChangesIffPresent | dev-consoles/code/fractal-thought-vis.tsx:72-94 | adding changes the tree exactly when some thought carries the parent id |
| FractalThoughtVis.NewIdMayRepeat | dev-consoles/code/fractal-thought-vis.tsx:72-94 | the drawn id is not checked against the tree, so a tree can end with a repeated id |
| FractalThoughtVis.ParseInt | dev-consoles/code/fractal-thought-vis.tsx:103 | parseInt gives no number exactly when, after an optional sign, no digit comes first |
| FractalThoughtVis.ParseShow | dev-consoles/code/fractal-thought-vis.tsx:116-119 | the digits of a number, with or without a minus sign, read back as that number |
| FractalThoughtVis.HandleSubmit | dev-consoles/code/fractal-thought-vis.tsx:100-106 | with both fields filled the child is added under the parsed id (nothing for an unreadable id) and only the text field is cleared; otherwise nothing changes |
| FractalThoughtVis.SubmitSize | dev-consoles/code/fractal-thought-vis.tsx:100-106 | a submit grows the tree by one thought per match of the parsed id, and by none when a field is empty or the id unreadable |
| ThoughtWebConsole.InitialInv | dev-consoles/code/thought-web-console.tsx:13-41 | the starting state keeps the invariant: unique node ids, no self-loop, at most five echoes per node, connecting only with a start, zoom in [0.1, 2] |
| ThoughtWebConsole.NextId | dev-consoles/code/thought-web-console.tsx:252 | the new id is 1 or one more than an existing id, and above every existing id |
| ThoughtWebConsole.AddNode | dev-consoles/code/thought-web-console.tsx:246-268 | blank text is refused with an error message; otherwise a node with a fresh id, the text and glyph, no echoes and a colour from the five-entry palette is appended, the text field cleared and the creation logged |
| ThoughtWebConsole.WithoutNode | dev-consoles/code/thought-web-console.tsx:272 | the filter keeps exactly the nodes whose id differs |
| ThoughtWebConsole.WithoutEndpoint | dev-consoles/code/thought-web-console.tsx:273 | the filter keeps exactly the connections that do not end at the id |
| ThoughtWebConsole.DeleteNode | dev-consoles/code/thought-web-console.tsx:271-279 | the node and every connection it ends go, the selection clears if it was that node, the removal is logged; nothing else changes |
| ThoughtWebConsole.DeleteUndoesAdd | dev-consoles/code/thought-web-console.tsx:246-279 | deleting the node just added gives the node list back |
| ThoughtWebConsole.StartConnection | dev-consoles/code/thought-web-console.tsx:282-291 | without a selection an error is logged; with one, connecting mode starts from it |
| ThoughtWebConsole.CompleteConnection | dev-consoles/code/thought-web-console.tsx:294-320 | a self-connection is cancelled keeping the start; a pair linked either way is refused; otherwise the pair is appended; connecting mode ends |
| ThoughtWebConsole.CompleteConnectionNoDuplicate | dev-consoles/code/thought-web-console.tsx:301-312 | a completed connection never repeats a pair, in either direction |
| ThoughtWebConsole.HandleNodeClick | dev-consoles/code/thought-web-console.tsx:323-329 | while connecting a click completes the connection; otherwise it toggles the selection |
| ThoughtWebConsole.HandleBackgroundClick | dev-consoles/code/thought-web-console.tsx:398-405 | the selection clears; connecting mode is cancelled and logged if it was on |
| ThoughtWebConsole.ConnectAllNodes | dev-consoles/code/thought-web-console.tsx:452-480 | with fewer than two nodes an error is logged; otherwise every ring link absent before, in either direction, is appended and the count logged |
| ThoughtWebConsole.RingAdditionsAreNew | dev-consoles/code/thought-web-console.tsx:463-475 | every added link is a ring link absent from the old connections in either direction |
| ThoughtWebConsole.RingAdditionsCover | dev-consoles/code/thought-web-console.tsx:459-478 | after the loop every ring link is present in one direction or the other |
| ThoughtWebConsole.RingAdditionsNoSelfLoops | dev-consoles/code/thought-web-console.tsx:459-462 | with unique ids and at least two nodes no ring link is a self-loop |
| ThoughtWebConsole.RingTwoNodesLinksBothWays | dev-consoles/code/thought-web-console.tsx:459-478 | links added in one run are not checked against each other, so two unconnected nodes get a link each way |
| ThoughtWebConsole.FindIndex | dev-consoles/code/thought-web-console.tsx:334 | the index of the first node with the id, or none exactly when no node has it |
| ThoughtWebConsole.DraggedNode | dev-consoles/code/thought-web-console.tsx:337-362 | the node moves to the target; a move of more than 10 on a draw above 0.7 leaves an echo at the old position with opacity 0.7; at most five echoes are kept |
| ThoughtWebConsole.HandleNodeDrag | dev-consoles/code/thought-web-console.tsx:332-370 | the first node with the id is dragged; an unknown id changes nothing |
| ThoughtWebConsole.FadeEchoes | dev-consoles/code/thought-web-console.tsx:377-389 | each echo fades and those at opacity 0.1 or less go |
| ThoughtWebConsole.FadeTick | dev-consoles/code/thought-web-console.tsx:373-395 | on each tick every node's echoes fade and nothing else about the node changes |
| ThoughtWebConsole.FadeTickKeepsInv | dev-consoles/code/thought-web-console.tsx:373-395 | a fade never lengthens an echo list, so the cap and the ids survive it |
| ThoughtWebConsole.HandleZoom | dev-consoles/code/thought-web-console.tsx:444-449 | the zoom is the product clamped to [0.1, 2] |
| ThoughtWebConsole.AddNodeKeepsInv | dev-consoles/code/thought-web-console.tsx:246-268 | adding a node keeps the ids unique, the links free of self-loops and the echoes capped |
| ThoughtWebConsole.DeleteNodeKeepsInv | dev-consoles/code/thought-web-console.tsx:271-279 | deleting a node keeps the invariant |
| ThoughtWebConsole.CompleteConnectionKeepsInv | dev-consoles/code/thought-web-console.tsx:294-320 | completing a connection keeps the invariant, in particular no self-loop |
| ThoughtWebConsole.ConnectAllKeepsInv | dev-consoles/code/thought-web-console.tsx:452-480 | forming the circuit keeps the invariant |
| ThoughtWebConsole.DragKeepsInv | dev-consoles/code/thought-web-console.tsx:332-370 | a drag keeps the invariant, in particular at most five echoes per node |
| DepthSync.LevelSize | dev-consoles/code/recursive.depth.sync.tsx:58 | at least three nodes per level: seven on the last level, 5 - floor(d/3) before it |
| DepthSync.GlyphFor | dev-consoles/code/recursive.depth.sync.tsx:62-86 | the first matching rule wins: sync point on turning points, then bifurcation, fractal recursion two levels short, terminal on the last level, stable on even nodes one level short, otherwise none |
| DepthSync.MakeNode | dev-consoles/code/recursive.depth.sync.tsx:60-119 | a node is keyed by its level and index, starts at its own depth, and is terminal and synced exactly on the last level |
| DepthSync.GenerateNodes | dev-consoles/code/recursive.depth.sync.tsx:49-130 | the generator yields levels 1 to the target, pushed level by level, each level recorded with its nodes and colour (d - 1) mod 10 |
| DepthSync.NodeKeysUnique | dev-consoles/code/recursive.depth.sync.tsx:61 | no two generated nodes share an id |
| DepthSync.StatusNeverOverrun | dev-consoles/code/recursive.depth.sync.tsx:116-118 | the status is synced exactly on the last level and pending elsewhere; overrun never occurs |
| DepthSync.GlyphPlacement | dev-consoles/code/recursive.depth.sync.tsx:75-86 | each glyph pins the node's level and index: terminal on the last level, fractal two short, stable on even nodes one short, bifurcation at d mod 4 = 2 and index 1, sync point exactly on turning points |
| DepthSync.LinkCount | dev-consoles/code/recursive.depth.sync.tsx:141-144 | a source makes one or two links, never more than the next level holds |
| DepthSync.MakeLink | dev-consoles/code/recursive.depth.sync.tsx:147-163 | link k of node i goes to node (i + k) mod size of the next level, one level deeper |
| DepthSync.LinksFromDistinct | dev-consoles/code/recursive.depth.sync.tsx:147-150 | the links of one source go to distinct nodes |
| DepthSync.SourceLinks | dev-consoles/code/recursive.depth.sync.tsx:147-164 | the inner loop yields exactly the links of one source |
| DepthSync.LevelLinksOf | dev-consoles/code/recursive.depth.sync.tsx:139-165 | the middle loop yields the links of every node of one level |
| DepthSync.GenerateLinks | dev-consoles/code/recursive.depth.sync.tsx:133-167 | every level but the last links each of its nodes to the next level |
| DepthSync.LevelLinksAdjacent | dev-consoles/code/recursive.depth.sync.tsx:134-165 | every link of a level leaves that level and enters an existing node of the next |
| DepthSync.LinksAdjacent | dev-consoles/code/recursive.depth.sync.tsx:133-167 | every generated link joins a level to the level below it |
| DepthSync.LinksStayInside | dev-consoles/code/recursive.depth.sync.tsx:134 | no link leaves the last level |
| DepthSync.TemporalBifurcations | dev-consoles/code/recursive.depth.sync.tsx:170-201 | the guard compares the local target depth with itself, so no bifurcation link is added and no node is marked |
| DepthSync.SyncNodeAt | dev-consoles/code/recursive.depth.sync.tsx:353-392 | a node at the target depth only starts pulsing; any other moves its depth and radius the fraction frame/100 of the way from its original depth to the target |
| DepthSync.StartSynchronization | dev-consoles/code/recursive.depth.sync.tsx:331-341 | ignored while a run is going; otherwise the run starts at frame 0 with a start message |
| DepthSync.SyncStep | dev-consoles/code/recursive.depth.sync.tsx:347-436 | outside a run nothing changes; a tick advances the frame, sets the progress to frame/100, moves every node, and the run ends exactly at frame 100 |
| DepthSync.InterpolateBelow | dev-consoles/code/recursive.depth.sync.tsx:383 | short of the last frame a node below the target stays below it |
| DepthSync.NodeStep | dev-consoles/code/recursive.depth.sync.tsx:353-392 | one tick moves a node from one frame of its interpolation to the next |
| DepthSync.StepFollows | dev-consoles/code/recursive.depth.sync.tsx:347-399 | one tick moves every node one frame further |
| DepthSync.SyncFrames | dev-consoles/code/recursive.depth.sync.tsx:331-440 | after k ticks of a run every node sits at frame k of its interpolation |
| DepthSync.SyncReachesTarget | dev-consoles/code/recursive.depth.sync.tsx:331-440 | after the 100 ticks every node is at the target depth and the run has ended |
| DepthSync.GeneratedUnmoved | dev-consoles/code/recursive.depth.sync.tsx:97-119 | the generator's nodes start at their original depth, at or below the target |
| DepthSync.ResetVisualization | dev-consoles/code/recursive.depth.sync.tsx:452-468 | the run stops, the progress is zero, the nodes are the generator's levels 1 to the target, all at their original depth, and the reset is logged |
| DepthSync.ResetThenSyncReachesTarget | dev-consoles/code/recursive.depth.sync.tsx:452-468 | after a reset, a full run again brings every node to the target depth and ends |
| DepthSync.ShowCompressionMetrics | dev-consoles/code/recursive.depth.sync.tsx:471-490 | four lines are logged: the heading, the mean compression factor, the mean stability factor (each NaN for no nodes) and the attention efficiency 11.8; nothing else changes |
| DepthSync.Mean | dev-consoles/code/recursive.depth.sync.tsx:473-480 | the sum divided by the count: NaN exactly for no items, otherwise the value that times the count gives the sum |
| DepthSync.GeneratedFactors | dev-consoles/code/recursive.depth.sync.tsx:86-94 | every generated node has compression factor 12.4 d / T in [12.4 / T, 12.4] and stability factor in [0.6, 0.95] |
| DepthSync.MetricsWithin | dev-consoles/code/recursive.depth.sync.tsx:471-490 | node factors within bounds give reported means within the same bounds |
| DepthSync.GeneratedMetrics | dev-consoles/code/recursive.depth.sync.tsx:471-490 | for a generated structure the reported means are a compression factor in (0, 12.4] and a stability factor in [0.6, 0.95] |
| DepthSync.HandleZoom | dev-consoles/code/recursive.depth.sync.tsx:271-276 | the zoom is the product clamped to [0.5, 2.5] |
| DepthSync.ColorIndexForDepth | dev-consoles/code/recursive.depth.sync.tsx:493-496 | the palette index floor(depth) - 1, clamped to [0, 9] |
| CollapseSim.MakeNode | dev-consoles/code/recursive.collapse.sim.tsx:78-108 | node i sits in its ring (1 to 5, 6 to 11, 12 to 15) with a probability in [0.3, 0.9) and a radius in [16, 22), and is visible exactly when its type draw exceeds 0.5 |
| CollapseSim.GenerateNodes | dev-consoles/code/recursive.collapse.sim.tsx:57-108 | with enough draws the origin and the fifteen ring nodes are made, node k from its own four draws in call order; otherwise generation fails |
| CollapseSim.OriginEdges | dev-consoles/code/recursive.collapse.sim.tsx:113-121 | five direct links from the origin to nodes 1 to 5, strength in [0.7, 1) |
| CollapseSim.LayerOneLinks | dev-consoles/code/recursive.collapse.sim.tsx:125-134 | a first-ring node makes one or two links into the second ring |
| CollapseSim.LayerOneEdges | dev-consoles/code/recursive.collapse.sim.tsx:124-135 | every first-ring node makes one or two links into the second ring |
| CollapseSim.SourceCountAppend | dev-consoles/code/recursive.collapse.sim.tsx:124-135 | appending one node's links counts them for that node only |
| CollapseSim.LayerTwoEdges | dev-consoles/code/recursive.collapse.sim.tsx:138-149 | each second-ring node makes at most one link into the third ring, in source order |
| CollapseSim.CrossEdges | dev-consoles/code/recursive.collapse.sim.tsx:152-165 | five cross links between distinct ring nodes; a target equal to its source is drawn again |
| CollapseSim.GenerateNetwork | dev-consoles/code/recursive.collapse.sim.tsx:57-169 | the network, built from draws in call order, has the shape of every group; too few draws give none |
| CollapseSim.NetworkEdgesValid | dev-consoles/code/recursive.collapse.sim.tsx:110-165 | every generated edge joins two distinct nodes of the network with a strength in (0, 1) |
| CollapseSim.InitialInv | dev-consoles/code/recursive.collapse.sim.tsx:6-54 | the initial state and the state after the boot messages keep the invariant |
| CollapseSim.Stop | dev-consoles/code/recursive.collapse.sim.tsx:204-213 | the run stops and the status is paused; nodes, collapsed and observed lists stay |
| CollapseSim.Restored | dev-consoles/code/recursive.collapse.sim.tsx:227-232 | a reset node is neither collapsed nor observed and active, with everything the network generated kept |
| CollapseSim.Reset | dev-consoles/code/recursive.collapse.sim.tsx:216-238 | both lists are emptied, the run stops, the status is ready, every node is back to its generated state; edges, threshold and mode stay |
| CollapseSim.Start | dev-consoles/code/recursive.collapse.sim.tsx:172-201 | ignored during a run; after a complete collapse the result is exactly `Reset` and no origin collapse follows; from an empty collapsed list only the origin collapses, the run starts and the two start lines are logged, everything else kept; a paused partial cascade only resumes, with the simulating flag and status |
| CollapseSim.FramesToSkip | dev-consoles/code/recursive.collapse.sim.tsx:245 | for every slider speed from 0.5 to 3, 30 / speed is a whole number of frames from 10 to 60 |
| CollapseSim.SimulationLoop | dev-consoles/code/recursive.collapse.sim.tsx:241-254 | a frame advances the counter, runs the cascade step exactly on multiples of the frames to skip, and requests the next frame exactly when the flag it reads is true |
| CollapseSim.StartedLoopStops | dev-consoles/code/recursive.collapse.sim.tsx:172-201 | as written, the first frame after a start runs no step and requests no further frame |
| CollapseSim.LiveLoopReachesStep | dev-consoles/code/recursive.collapse.sim.tsx:241-254 | read live, a simulating state idles through the frames before the frames to skip and then runs the cascade step |
| CollapseSim.StartedLiveLoopSteps | dev-consoles/code/recursive.collapse.sim.tsx:172-254 | with the flag read live, a fresh or paused start reaches the cascade step on frame 30 / speed |
| CollapseSim.IndexOfId | dev-consoles/code/recursive.collapse.sim.tsx:326 | the first node with the id, or -1 exactly when there is none |
| CollapseSim.CollapseStep | dev-consoles/code/recursive.collapse.sim.tsx:257-354 | a step keeps edges, observed list, threshold and mode and only extends the collapsed list |
| CollapseSim.Accumulate | dev-consoles/code/recursive.collapse.sim.tsx:285-288 | the adjusted probability is the base times the strength of every edge joining a collapsed node |
| CollapseSim.ScanNode | dev-consoles/code/recursive.collapse.sim.tsx:262-320 | a node adds its id and its log lines exactly when it fires |
| CollapseSim.ScanNodes | dev-consoles/code/recursive.collapse.sim.tsx:262-320 | the forEach collects the ids and log lines of the firing nodes, in node order |
| CollapseSim.MarkNodes | dev-consoles/code/recursive.collapse.sim.tsx:323-334 | each fired id marks the node findIndex finds as collapsed |
| CollapseSim.ProcessCollapseStep | dev-consoles/code/recursive.collapse.sim.tsx:257-354 | the step's loops compute exactly the specified step |
| CollapseSim.FiredIdsMembers | dev-consoles/code/recursive.collapse.sim.tsx:262-304 | the fired ids are exactly the firing nodes, each once |
| CollapseSim.MarkAllIndexed | dev-consoles/code/recursive.collapse.sim.tsx:323-334 | with ids at their indices, marking collapses exactly the listed nodes |
| CollapseSim.NewlyCollapsed | dev-consoles/code/recursive.collapse.sim.tsx:262-337 | after a step a node is collapsed exactly when it was, or it fires: linked to a node collapsed before the step with adjusted probability above the threshold |
| CollapseSim.StepKeepsInv | dev-consoles/code/recursive.collapse.sim.tsx:257-354 | a step keeps the flags in line with the lists, and the lists free of repeats |
| CollapseSim.LinkProductUnit | dev-consoles/code/recursive.collapse.sim.tsx:286-288 | strengths in [0, 1] multiply to a value in [0, 1] |
| CollapseSim.AdjustedAtMostBase | dev-consoles/code/recursive.collapse.sim.tsx:276-302 | unless observation boosts a latent node, the adjusted probability never exceeds the base, so a node whose base is at most the threshold never fires |
| CollapseSim.RestoreMarkAll | dev-consoles/code/recursive.collapse.sim.tsx:227-232 | marking nodes collapsed changes nothing a reset keeps |
| CollapseSim.ResetAfterStep | dev-consoles/code/recursive.collapse.sim.tsx:216-238 | resetting after a step gives the nodes resetting before it gives |
| CollapseSim.Without | dev-consoles/code/recursive.collapse.sim.tsx:371 | the filter keeps exactly the other ids |
| CollapseSim.WithoutAppended | dev-consoles/code/recursive.collapse.sim.tsx:364-373 | releasing the id just observed gives the observed list back |
| CollapseSim.HandleNodeClick | dev-consoles/code/recursive.collapse.sim.tsx:357-387 | the id becomes active; a known node is observed when it was not and released when it was, its flag following; nothing else changes; an unknown id only becomes active |
| CollapseSim.ClickKeepsInv | dev-consoles/code/recursive.collapse.sim.tsx:357-387 | a click keeps the invariant |
| CollapseSim.ClickTwiceRestores | dev-consoles/code/recursive.collapse.sim.tsx:357-387 | clicking an unobserved node twice restores the nodes and both lists |
| CollapseSim.ObserveAll | dev-consoles/code/recursive.collapse.sim.tsx:407-421 | every node is observed and the observed list holds every id in node order; collapsed list and edges stay |
| CollapseSim.ClassRun | dev-consoles/code/recursive.collapse.sim.tsx:430 | a greedy character-class run: the longest prefix in the class |
| CollapseSim.FirstMatch | dev-consoles/code/recursive.collapse.sim.tsx:430-440 | match returns the capture of the leftmost match, or none exactly when no position matches |
| CollapseSim.LeftmostMatch | dev-consoles/code/recursive.collapse.sim.tsx:430-440 | a match with none before it is the one match returns |
| CollapseSim.ClassRunStops | dev-consoles/code/recursive.collapse.sim.tsx:430-440 | a greedy run stops at the first character outside the class |
| CollapseSim.ParseDecimal | dev-consoles/code/recursive.collapse.sim.tsx:432 | parseFloat of a digits-and-dots run gives a non-negative number or NaN |
| CollapseSim.ParseWhole | dev-consoles/code/recursive.collapse.sim.tsx:432 | a run of digits reads as the whole number it spells |
| CollapseSim.ParseFraction | dev-consoles/code/recursive.collapse.sim.tsx:432 | 0. followed by digits reads as that fraction, below one |
| CollapseSim.ThresholdSetting | dev-consoles/code/recursive.collapse.sim.tsx:430-433 | a threshold is set only from a number in [0, 1] |
| CollapseSim.ModeSetting | dev-consoles/code/recursive.collapse.sim.tsx:440-443 | a mode is set exactly when the captured word is schrodinger or deterministic |
| CollapseSim.ApplyConfig | dev-consoles/code/recursive.collapse.sim.tsx:428-452 | only the threshold, the mode or the console change; a changed threshold is in [0, 1] and leaves the mode; with neither valid only an error is logged |
| CollapseSim.RunCommand | dev-consoles/code/recursive.collapse.sim.tsx:395-455 | the line is echoed first; a line with none of the four prefixes only adds the unrecognized-command error |
| CollapseSim.Submit | dev-consoles/code/recursive.collapse.sim.tsx:461-467 | a blank line is ignored; otherwise the command runs, echoed first |
| CollapseSim.ConfigDispatch | dev-consoles/code/recursive.collapse.sim.tsx:428 | a .p/config line goes to the configuration handler after its echo |
| CollapseSim.ThresholdCommandMatch | dev-consoles/code/recursive.collapse.sim.tsx:430 | in .p/config threshold=<num> the pattern captures num and no mode is named |
| CollapseSim.ModeCommandMatch | dev-consoles/code/recursive.collapse.sim.tsx:440 | in .p/config mode=<q><word><q> the pattern captures word and no threshold is named |
| CollapseSim.ConfigThresholdEffect | dev-consoles/code/recursive.collapse.sim.tsx:430-437 | a valid threshold is set and nothing else changes but the console |
| CollapseSim.ConfigInvalidEffect | dev-consoles/code/recursive.collapse.sim.tsx:450-451 | a line naming neither a valid threshold nor a valid mode only logs an error |
| CollapseSim.ConfigSetsFraction | dev-consoles/code/recursive.collapse.sim.tsx:430-437 | threshold=0.<digits> always sets the threshold to that fraction |
| CollapseSim.ConfigRejectsAboveOne | dev-consoles/code/recursive.collapse.sim.tsx:433 | a whole-number threshold above one is refused and only the console changes |
| CollapseSim.ConfigSetsMode | dev-consoles/code/recursive.collapse.sim.tsx:440-447 | mode="deterministic" switches the mode and keeps the threshold; the two quotes need not match |
| CollapseSim.ConfigRejectsUnknownMode | dev-consoles/code/recursive.collapse.sim.tsx:443 | a mode other than the two names is refused |
| CollapseSim.ResetKeepsInv | dev-consoles/code/recursive.collapse.sim.tsx:216-238 | a reset keeps the invariant |
| CollapseSim.StartKeepsInv | dev-consoles/code/recursive.collapse.sim.tsx:172-201 | a start keeps the invariant |
| CollapseSim.ObserveAllKeepsInv | dev-consoles/code/recursive.collapse.sim.tsx:407-421 | observing all keeps the invariant |
| CollapseSim.CommandKeepsInv | dev-consoles/code/recursive.collapse.sim.tsx:395-455 | every command keeps the invariant |
| IdentitySig.FugueOf | dev-consoles/code/recursive.identity.sig.tsx:31-67 | an id finds the pattern carrying it, and no pattern for any other string |
| IdentitySig.FugueIdRoundTrip | dev-consoles/code/recursive.identity.sig.tsx:31-67 | each of the five patterns is found under its own id |
| IdentitySig.PrimaryFugue | dev-consoles/code/recursive.identity.sig.tsx:169-174 | node i carries theme for 1 to 3, inversion to 6, augmentation to 9, counterpoint to 12, stretto beyond |
| IdentitySig.SecondaryOptions | dev-consoles/code/recursive.identity.sig.tsx:178-180 | the options are the four other patterns |
| IdentitySig.SecondaryOptionsFilter | dev-consoles/code/recursive.identity.sig.tsx:178-180 | the options are the pattern list with the primary filtered out, order kept |
| IdentitySig.GenerateNode | dev-consoles/code/recursive.identity.sig.tsx:155-216 | ring node i from its draws in call order: its type from the first draw, and a second fugue exactly when the second draw exceeds 0.7 |
| IdentitySig.GenerateNodes | dev-consoles/code/recursive.identity.sig.tsx:136-217 | the core node and the fifteen ring nodes, each of its own shape |
| IdentitySig.CoreLinks | dev-consoles/code/recursive.identity.sig.tsx:222-230 | five direct links from the core to nodes 1 to 5 |
| IdentitySig.LayerOneLinks | dev-consoles/code/recursive.identity.sig.tsx:233-245 | each first-layer node makes one or two links, all into the second layer |
| IdentitySig.LayerTwoLinks | dev-consoles/code/recursive.identity.sig.tsx:247-258 | each second-layer node makes at most one link, into the third layer |
| IdentitySig.CrossLinks | dev-consoles/code/recursive.identity.sig.tsx:261-279 | six cross links, each redrawn until it joins two distinct nodes not joined by any earlier link |
| IdentitySig.ResidueCollection | dev-consoles/code/recursive.identity.sig.tsx:316-326 | the collection a residue's glyph is drawn from is one of the four lists |
| IdentitySig.GlyphResidues | dev-consoles/code/recursive.identity.sig.tsx:288-345 | the residues read the node list from before the regeneration: when it is empty the twenty near-node residues are skipped and ten remain, otherwise all thirty are made, each well shaped, ids ending at 29 |
| IdentitySig.GenerateThoughtNodes | dev-consoles/code/recursive.identity.sig.tsx:136-285 | the network, built from draws in call order, is well formed and carries ten or thirty residues as the old node list allows; too few draws give none |
| IdentitySig.LinksJoinDistinctNodes | dev-consoles/code/recursive.identity.sig.tsx:219-279 | every link joins two distinct nodes of the network |
| IdentitySig.CrossLinksNeverRepeat | dev-consoles/code/recursive.identity.sig.tsx:265-271 | a cross link never joins, in either direction, a pair an earlier link joins |
| IdentitySig.CrossPairsDistinct | dev-consoles/code/recursive.identity.sig.tsx:261-279 | the six cross links join six different pairs |
| IdentitySig.VisibleCount | dev-consoles/code/recursive.identity.sig.tsx:125 | the visible count is ceil(p / 60 x n) |
| IdentitySig.CeilOfSixtieths | dev-consoles/code/recursive.identity.sig.tsx:125 | the ceiling of m/60 in integer arithmetic equals Math.ceil on the real quotient |
| IdentitySig.BootedInv | dev-consoles/code/recursive.identity.sig.tsx:72-100 | the booted state keeps the invariant |
| IdentitySig.Start | dev-consoles/code/recursive.identity.sig.tsx:348-361 | ignored while processing; otherwise the cycle restarts at 0 with no glyph shown and no annotation |
| IdentitySig.Stop | dev-consoles/code/recursive.identity.sig.tsx:399-403 | the cycle freezes where it is, the status is paused, the pause is logged, and the network, highlighted fugue and selection are kept |
| IdentitySig.Reset | dev-consoles/code/recursive.identity.sig.tsx:406-418 | the process stops, the status is ready, the highlight, glyphs and annotations are cleared, a regenerated network replaces the old; the selection stays |
| IdentitySig.Stage | dev-consoles/code/recursive.identity.sig.tsx:363-395 | the k-th timed message: stages 2 to 5 highlight theme, inversion, augmentation and counterpoint, stage 6 clears the highlight, stage 7 completes; one line each, nothing else changes |
| IdentitySig.StagesComplete | dev-consoles/code/recursive.identity.sig.tsx:363-395 | after all seven the trace is complete, no fugue is highlighted and seven lines were added |
| IdentitySig.CreateSelfAnnotation | dev-consoles/code/recursive.identity.sig.tsx:421-456 | fewer than four annotations gain the next one in order; four stay as they are |
| IdentitySig.AnnotateKeepsShape | dev-consoles/code/recursive.identity.sig.tsx:421-456 | annotating adds one exactly when fewer than four exist, keeping them in order |
| IdentitySig.AnnotateTimesCount | dev-consoles/code/recursive.identity.sig.tsx:421-456 | k annotation attempts from none leave min(k, 4) |
| IdentitySig.Tick | dev-consoles/code/recursive.identity.sig.tsx:109-133 | a 200 ms step advances the position modulo 60, shows the first ceil(p/60 n) residues and attempts an annotation at 15, 30 and 45 |
| IdentitySig.TickReveals | dev-consoles/code/recursive.identity.sig.tsx:122-133 | within a cycle the visible residues only grow, and at the wrap they all disappear |
| IdentitySig.VisibleCountGrows | dev-consoles/code/recursive.identity.sig.tsx:125 | the visible count never falls as the position grows |
| IdentitySig.AllVisibleAtEnd | dev-consoles/code/recursive.identity.sig.tsx:125-126 | at position 59 every residue is visible |
| IdentitySig.FindNode | dev-consoles/code/recursive.identity.sig.tsx:465 | find returns a node with the id, or none exactly when no node has it |
| IdentitySig.FindNodeShaped | dev-consoles/code/recursive.identity.sig.tsx:136-217 | in a generated network node id sits at index id, and ids past 15 are not found |
| IdentitySig.LinkedReport | dev-consoles/code/recursive.identity.sig.tsx:484-500 | the k-th report line describes the k-th link touching the node: one line per such link, in link order |
| IdentitySig.Touching | dev-consoles/code/recursive.identity.sig.tsx:484-485 | the filter keeps exactly the links with the node at either end |
| IdentitySig.LinkedReportNeighbours | dev-consoles/code/recursive.identity.sig.tsx:484-495 | each reported neighbour is the other end of a link touching the node |
| IdentitySig.HandleNodeClick | dev-consoles/code/recursive.identity.sig.tsx:464-501 | an unknown id does nothing; a known one is selected and the inspect line, its kind, fugues, glyphs, significance and link count are logged, then the link report; nothing else changes |
| IdentitySig.ClickReportsOtherNodes | dev-consoles/code/recursive.identity.sig.tsx:484-500 | a click never reports the node as its own neighbour, and every neighbour is a node of the network |
| IdentitySig.NodeOpacity | dev-consoles/code/recursive.identity.sig.tsx:611-618 | a node is dimmed exactly when a highlighted fugue is not among its own |
| IdentitySig.OpacityOfPrimary | dev-consoles/code/recursive.identity.sig.tsx:611-618 | highlighting a ring node's primary fugue never dims it; the core is lit only under the theme |
| IdentitySig.NoHighlightNoDimming | dev-consoles/code/recursive.identity.sig.tsx:611-618 | with no highlight every node is lit |
| IdentitySig.LowerRun | dev-consoles/code/recursive.identity.sig.tsx:523 | the greedy [a-z]+ run at the head of a string |
| IdentitySig.FirstPattern | dev-consoles/code/recursive.identity.sig.tsx:523 | match returns the word of the leftmost match, or none exactly when no position matches |
| IdentitySig.LeftmostPattern | dev-consoles/code/recursive.identity.sig.tsx:523 | a match with none before it is the one returned |
| IdentitySig.HighlightTarget | dev-consoles/code/recursive.identity.sig.tsx:523-526 | the command names a fugue exactly when the captured word is a pattern id |
| IdentitySig.Highlight | dev-consoles/code/recursive.identity.sig.tsx:521-535 | a known fugue is highlighted and announced; otherwise only an error is logged |
| IdentitySig.RunCommand | dev-consoles/code/recursive.identity.sig.tsx:504-543 | the line is echoed first; a line with none of the known prefixes only adds the unrecognized-command error |
| IdentitySig.Submit | dev-consoles/code/recursive.identity.sig.tsx:549-555 | a blank line is ignored; otherwise the untrimmed line runs, echoed first |
| IdentitySig.HighlightDispatch | dev-consoles/code/recursive.identity.sig.tsx:521 | a .p/highlight.fugue line goes to the highlight handler after its echo |
| IdentitySig.HighlightCommandMatch | dev-consoles/code/recursive.identity.sig.tsx:523 | in .p/highlight.fugue{pattern=<q><word><q>... the pattern captures word |
| IdentitySig.PatternAtQuoted | dev-consoles/code/recursive.identity.sig.tsx:523 | pattern= followed by a quote, a lower-case word and a quote matches that word |
| IdentitySig.HighlightEffect | dev-consoles/code/recursive.identity.sig.tsx:524-529 | naming a known fugue highlights it and changes nothing else |
| IdentitySig.HighlightInvalidEffect | dev-consoles/code/recursive.identity.sig.tsx:533-534 | naming no known fugue only logs an error |
| IdentitySig.HighlightSetsFugue | dev-consoles/code/recursive.identity.sig.tsx:521-535 | naming any of the five ids, with either quotes, highlights that fugue |
| IdentitySig.HighlightRejectsUnknown | dev-consoles/code/recursive.identity.sig.tsx:526-534 | any other lower-case word is refused and only the console changes |
| IdentitySig.HighlightOnlyKnown | dev-consoles/code/recursive.identity.sig.tsx:521-535 | a highlight command leaves the old highlight or a named pattern |
| IdentitySig.StartKeepsInv | dev-consoles/code/recursive.identity.sig.tsx:348-396 | starting keeps the invariant |
| IdentitySig.ResetKeepsInv | dev-consoles/code/recursive.identity.sig.tsx:406-418 | a reset to a well-formed network gives a state keeping the invariant |
| IdentitySig.TickKeepsInv | dev-consoles/code/recursive.identity.sig.tsx:109-133 | a tick keeps the invariant |
| IdentitySig.StagesKeepInv | dev-consoles/code/recursive.identity.sig.tsx:363-395 | each timed message keeps the invariant |
| IdentitySig.ClickKeepsInv | dev-consoles/code/recursive.identity.sig.tsx:464-501 | a click keeps the invariant |
| IdentitySig.CommandKeepsInv | dev-consoles/code/recursive.identity.sig.tsx:504-543 | every command keeps the invariant |
| EchoChamber.BaseFor | dev-ui-consoles/code/recursive-echo-chamber.tsx:67 | the base pair is the level's own, the last one from level 6 on |
| EchoChamber.Split | dev-ui-consoles/code/recursive-echo-chamber.tsx:105-106 | split(' ') gives at least one piece and no piece holds a space |
| EchoChamber.JoinSplit | dev-ui-consoles/code/recursive-echo-chamber.tsx:105-111 | joining the pieces of a split gives the text back |
| EchoChamber.SplitJoin | dev-ui-consoles/code/recursive-echo-chamber.tsx:108-118 | splitting a join of space-free words gives the words back |
| EchoChamber.TransformThought | dev-ui-consoles/code/recursive-echo-chamber.tsx:81-137 | the texts reassigned stage by stage equal the staged transformation of the base pair |
| EchoChamber.Fragment | dev-ui-consoles/code/recursive-echo-chamber.tsx:103-119 | the level-5 splice on one text equals the specified fragmentation |
| EchoChamber.LowLevelsUnchanged | dev-ui-consoles/code/recursive-echo-chamber.tsx:82-95 | levels up to 2 leave the base pair as it is |
| EchoChamber.LevelThree | dev-ui-consoles/code/recursive-echo-chamber.tsx:91-95 | at level 3 the original's last character becomes ", recursively." and the reflection gains a sentence |
| EchoChamber.LevelFour | dev-ui-consoles/code/recursive-echo-chamber.tsx:97-101 | level 4 adds the meta-level and loop-depth prefixes, numbered 1, on top of level 3 |
| EchoChamber.FragmentInsertsOne | dev-ui-consoles/code/recursive-echo-chamber.tsx:103-119 | a text of more than three words gets exactly one token inserted at the middle index, joined from its neighbours; a shorter text is kept |
| EchoChamber.DeformKeepsWords | dev-ui-consoles/code/recursive-echo-chamber.tsx:123-125 | level 6 keeps the word count and marks exactly the words at indices divisible by 3 |
| EchoChamber.EchoDotsLength | dev-ui-consoles/code/recursive-echo-chamber.tsx:127 | each ". " becomes ". RECURSIVE-ECHO: ", lengthening the reflection by 16 per occurrence |
| EchoChamber.EchoDotsNone | dev-ui-consoles/code/recursive-echo-chamber.tsx:127 | a reflection without ". " is kept |
| EchoChamber.Overlap | dev-ui-consoles/code/recursive-echo-chamber.tsx:44 | the overlap is min(100, floor(100 level / 7)) |
| EchoChamber.FloorSevenths | dev-ui-consoles/code/recursive-echo-chamber.tsx:44 | Math.floor of level/7 on reals agrees with integer division |
| EchoChamber.OverlapMonotone | dev-ui-consoles/code/recursive-echo-chamber.tsx:44 | the overlap grows with the level and is 100 exactly from level 7 |
| EchoChamber.TextWarp | dev-ui-consoles/code/recursive-echo-chamber.tsx:195-206 | no warp below level 4; otherwise spacing within its caps and a glow exactly above level 5 |
| EchoChamber.WarpMonotone | dev-ui-consoles/code/recursive-echo-chamber.tsx:198-199 | the spacing only grows with the level and reaches its caps from level 11 |
| EchoChamber.RecordedExtend | dev-ui-consoles/code/recursive-echo-chamber.tsx:37-57 | recording the next level's thought keeps one thought per level in order |
| EchoChamber.InitialInv | dev-ui-consoles/code/recursive-echo-chamber.tsx:5-9 | the initial chamber keeps the invariant |
| EchoChamber.AddThought | dev-ui-consoles/code/recursive-echo-chamber.tsx:65-78 | the level's transformed thought is appended |
| EchoChamber.Mount | dev-ui-consoles/code/recursive-echo-chamber.tsx:25-34 | mounting makes the chamber active, records the level-0 thought and keeps the invariant |
| EchoChamber.Advance | dev-ui-consoles/code/recursive-echo-chamber.tsx:37-62 | the level rises by one, its thought is recorded, the overlap recomputed, and the collapse begins exactly at level 7 |
| EchoChamber.AddCollapsedThought | dev-ui-consoles/code/recursive-echo-chamber.tsx:157-176 | one level-7 collapsing thought from the three fragments is appended and nothing else changes |
| EchoChamber.FinishCollapse | dev-ui-consoles/code/recursive-echo-chamber.tsx:150-153 | the status becomes collapsed and nothing else changes |
| EchoChamber.CollapseKeepsInv | dev-ui-consoles/code/recursive-echo-chamber.tsx:140-176 | the collapse steps keep the invariant |
| CronMirror.CurrentThought | dev-consoles/code/cron.mirror.tsx:50-72 | levels 0 and 1 give their base thought, level 4 the feedback line, level 5 and above the unification line |
| CronMirror.ThoughtAtTwo | dev-consoles/code/cron.mirror.tsx:55-61 | level 2 quotes the level-1 base thought whole |
| CronMirror.ThoughtAtThree | dev-consoles/code/cron.mirror.tsx:62-63 | level 3 quotes the first fifteen characters of the level-2 base thought |
| CronMirror.ExcerptAtThree | dev-consoles/code/cron.mirror.tsx:63 | the fifteen characters quoted are "Cron reflects t" |
| CronMirror.FragmentKind | dev-consoles/code/cron.mirror.tsx:43 | a fragment is a thought exactly at even levels |
| CronMirror.LevelColor | dev-consoles/code/cron.mirror.tsx:105-115 | the colour is one of the six level colours |
| CronMirror.LevelColorsPerCycle | dev-consoles/code/cron.mirror.tsx:105-115 | two levels share a colour exactly when they agree modulo 6 |
| CronMirror.Advanced | dev-consoles/code/cron.mirror.tsx:75-84 | the level moves on modulo 6 and the cycle count rises exactly at the wrap |
| CronMirror.AdvancedTimesClosedForm | dev-consoles/code/cron.mirror.tsx:75-84 | after k advances the level is (level + k) mod 6 and one cycle was counted per wrap |
| CronMirror.PushKeepsWellLogged | dev-consoles/code/cron.mirror.tsx:24-34 | pushing the next advance's entry keeps every entry tied to its level and each entry following the older one |
| CronMirror.Mirror.constructor | dev-consoles/code/cron.mirror.tsx:5-10 | level 0, cycle 0, auto-advance on, standard mode, and the first level effect's entry and fragment recorded |
| CronMirror.Mirror.AddLogEntry | dev-consoles/code/cron.mirror.tsx:24-34 | the entry goes first and the log keeps its 100 newest |
| CronMirror.Mirror.AddMemoryFragment | dev-consoles/code/cron.mirror.tsx:37-47 | the fragment goes first, typed by the level's parity, and the list keeps its 20 newest |
| CronMirror.Mirror.AdvanceRecursion | dev-consoles/code/cron.mirror.tsx:75-102 | the level advances modulo 6 with a cycle counted at the wrap, and one entry and one fragment for the new level are recorded |
| CronMirror.Mirror.Tick | dev-consoles/code/cron.mirror.tsx:87-95 | a 3-second interval advances only while auto-advance is on: the level and cycle move on, the log gets exactly the new level's entry in front (100 newest kept) and the fragments its fragment (20 newest kept); otherwise nothing changes |
| CronMirror.Mirror.ToggleAutoAdvance | dev-consoles/code/cron.mirror.tsx:158 | the auto-advance switch flips |
| CronMirror.Mirror.ToggleRenderMode | dev-consoles/code/cron.mirror.tsx:151 | dark becomes light and any other mode dark |
| CronMirror.LogRetracesAdvances | dev-consoles/code/cron.mirror.tsx:24-34 | read from oldest to newest the log retraces the advances: the k-th entry's level and cycle are those after the corresponding number of advances from the oldest |
| RecursiveMirror.ThoughtForDepth | dev-consoles/code/recursive-mirror.tsx:58-74 | depths 0-4 give their execution pattern, depth 6 the stabilisation sentence and deeper depths the unification sentence |
| RecursiveMirror.ThoughtAtFive | dev-consoles/code/recursive-mirror.tsx:63-65 | depth 5 reports a loop quoting the first twenty characters of the first pattern, "Cron sees a memory f" |
| RecursiveMirror.StepTypeAt | dev-consoles/code/recursive-mirror.tsx:112-113 | the step type is the types list read at the depth modulo 5 |
| RecursiveMirror.FragmentDepths | dev-consoles/code/recursive-mirror.tsx:39-41 | among depths 0-5, a memory fragment is left exactly at depths 1 and 2 |
| RecursiveMirror.Recorded | dev-consoles/code/recursive-mirror.tsx:24-55 | the new step goes first in a stack of at most 50; a memory or thought step also puts a fragment first in a list of at most 20, otherwise the fragments are unchanged |
| RecursiveMirror.RecordKeepsWellFormed | dev-consoles/code/recursive-mirror.tsx:24-55 | recording a step that follows the newest one keeps both lists well formed: steps tied to their depth and type, fragments tied to their depth |
| RecursiveMirror.StackCyclesDescend | dev-consoles/code/recursive-mirror.tsx:33-36 | in a well-formed stack, cycles never increase from newest to oldest |
| RecursiveMirror.Mirror.constructor | dev-consoles/code/recursive-mirror.tsx:5-11 | depth 0, cycle 0, auto-execution on, initialising, and both lists empty |
| RecursiveMirror.Mirror.AddExecutionStep | dev-consoles/code/recursive-mirror.tsx:24-42 | both lists become what Recorded gives at the current cycle |
| RecursiveMirror.Mirror.CreateMemoryFragment | dev-consoles/code/recursive-mirror.tsx:45-55 | the fragment goes first in a list of at most 20 |
| RecursiveMirror.Mirror.Begin | dev-consoles/code/recursive-mirror.tsx:107-125 | after the start-up delay the console is executing, and the current depth's step is recorded if it was not executing already |
| RecursiveMirror.Mirror.AdvanceExecution | dev-consoles/code/recursive-mirror.tsx:77-115 | below depth 5 the depth grows by one and its step is recorded; at depth 5 the run completes, auto-execution stops and nothing is recorded |
| RecursiveMirror.Mirror.ResetExecution | dev-consoles/code/recursive-mirror.tsx:88-94 | depth 0 of the next cycle, initialising, auto-execution on |
| RecursiveMirror.Mirror.ToggleAutoExecute | dev-consoles/code/recursive-mirror.tsx:200-201 | the switch flips; the button is disabled once the run is complete |
| SelfRender.CurrentThought | dev-consoles/code/self-render-console.tsx:74-76 | the level's core thought, and the last core thought for every level past the list |
| SelfRender.LevelColor | dev-consoles/code/self-render-console.tsx:140-151 | the text colour is one of the seven level colours |
| SelfRender.LevelBgColor | dev-consoles/code/self-render-console.tsx:154-165 | the background colour is one of the seven level backgrounds |
| SelfRender.LevelColorsPerPeriod | dev-consoles/code/self-render-console.tsx:140-165 | two levels share a colour, and a background, exactly when they agree modulo 7 |
| SelfRender.NextPhase | dev-consoles/code/self-render-console.tsx:42-57 | every phase change moves to a different phase |
| SelfRender.PhasesCycle | dev-consoles/code/self-render-console.tsx:10 | console, memory, thought, output: four changes return to the same phase and two never do |
| SelfRender.Rounds | dev-consoles/code/self-render-console.tsx:42-66 | each finished level leaves three entries |
| SelfRender.FragmentRounds | dev-consoles/code/self-render-console.tsx:46-49 | each finished level leaves one fragment, newest level first, holding that level's thought |
| SelfRender.EntryAdvancesRound | dev-consoles/code/self-render-console.tsx:42-53 | in a run that has logged exactly its finished levels and part of the current one, a console or thought entry moves the level on one phase and keeps that shape |
| SelfRender.StackSize | dev-consoles/code/self-render-console.tsx:42-66 | while executing, the stack holds three entries per finished level plus the current level's entries so far |
| SelfRender.RoundsAt | dev-consoles/code/self-render-console.tsx:42-66 | in the entries of a finished run, level l sits at positions 3(level - l) to 3(level - l) + 2, as output, thought and console |
| SelfRender.Console.constructor | dev-consoles/code/self-render-console.tsx:5-11 | level 0, cycle 0, console phase, active and initialising, both lists empty |
| SelfRender.Console.AddRenderStackEntry | dev-consoles/code/self-render-console.tsx:79-91 | the entry goes first, stamped with the level and cycle; the stack has no cap |
| SelfRender.Console.AddMemoryFragment | dev-consoles/code/self-render-console.tsx:94-105 | the fragment goes first, stamped with the level and cycle; the list has no cap |
| SelfRender.Console.Start | dev-consoles/code/self-render-console.tsx:26-34 | after the start-up delay the console is executing at level 1 |
| SelfRender.Console.PhaseTick | dev-consoles/code/self-render-console.tsx:37-71 | only an active, executing console moves: one entry or fragment of the current level goes first and the phase moves on; the output phase raises the level below 6 and completes the run at 6 |
| SelfRender.Console.EntryTick | dev-consoles/code/self-render-console.tsx:42-53 | the console or thought phase puts the level's entry first and moves the phase on |
| SelfRender.Console.MemoryTick | dev-consoles/code/self-render-console.tsx:46-49 | the memory phase puts the level's fragment first and moves to the thought phase |
| SelfRender.Console.OutputTick | dev-consoles/code/self-render-console.tsx:54-66 | the output phase puts the level's last entry first, then raises the level below 6 or completes the run at 6 |
| SelfRender.Console.ResetSystem | dev-consoles/code/self-render-console.tsx:113-126 | from a completed run (the only state that shows the reset button): level 1 of the next cycle, both lists empty, console phase, executing and active |
| ReflectionConsole.Pick | dev-ui-consoles/code/reflection-console.tsx:101 | a draw in [0, 1) always picks one of the listed patterns |
| ReflectionConsole.Latched | dev-ui-consoles/code/reflection-console.tsx:180-213 | after the warning effect each flag is up exactly when it was up before or its threshold is reached |
| ReflectionConsole.LatchedLogsOnRaise | dev-ui-consoles/code/reflection-console.tsx:180-213 | each warning message is logged exactly when its flag goes up, so a raised flag never logs again, and one run logs at most five messages |
| ReflectionConsole.Latch | dev-ui-consoles/code/reflection-console.tsx:182-187 | the flag ends up when it was up or its threshold is reached, and messages are appended only when it goes up |
| ReflectionConsole.LatchedSettles | dev-ui-consoles/code/reflection-console.tsx:213 | once the flags match the thresholds, re-running the effect changes nothing and logs nothing |
| ReflectionConsole.DueMonotone | dev-ui-consoles/code/reflection-console.tsx:182-207 | every threshold stays reached as the counters grow |
| ReflectionConsole.DepthOf | dev-ui-consoles/code/reflection-console.tsx:111-159 | the depth the lists account for is never negative |
| ReflectionConsole.EmergenceImpliesRecursion | dev-ui-consoles/code/reflection-console.tsx:190-207 | emergence and collapse both need a depth past the recursion threshold |
| ReflectionConsole.CollapseNeedsSevenActions | dev-ui-consoles/code/reflection-console.tsx:207 | a collapse takes at least seven generated items, since each adds at most 1.5 to the depth |
| ReflectionConsole.ReflectionConsole.constructor | dev-ui-consoles/code/reflection-console.tsx:5-17 | empty lists, zero counters, every flag down and only the initialisation message |
| ReflectionConsole.ReflectionConsole.AddConsoleMessage | dev-ui-consoles/code/reflection-console.tsx:61-63 | messages are appended, oldest first |
| ReflectionConsole.ReflectionConsole.CheckWarnings | dev-ui-consoles/code/reflection-console.tsx:180-213 | the flags and appended messages are those of Latched on the current counters |
| ReflectionConsole.ReflectionConsole.GenerateThought | dev-ui-consoles/code/reflection-console.tsx:100-112 | one picked thought is appended and the depth grows by 0.5; the warning effect follows and the counters still count the lists |
| ReflectionConsole.ReflectionConsole.GenerateReflection | dev-ui-consoles/code/reflection-console.tsx:115-136 | without thoughts only the error is logged; otherwise one reflection is appended, the level grows by 1 and the depth by 1, and the warning effect follows |
| ReflectionConsole.ReflectionConsole.GenerateEcho | dev-ui-consoles/code/reflection-console.tsx:139-160 | without reflections only the error is logged; otherwise one echo is appended, the count grows by 1 and the depth by 1.5, and the warnings are logged before the echo-count status |
| ReflectionConsole.ReflectionConsole.ResetSystem | dev-ui-consoles/code/reflection-console.tsx:163-177 | the lists are emptied, the counters zeroed, every flag cleared and the reset logged |

## Left out

- Rendering is not modelled:
  - the matplotlib figure, colour maps, legend, arrows and GIF writing of `code/qkov_recursive_map.py`;
  - its base64/HTML packaging and file output;
  - every JSX/CSS/SVG render section of the React components.
  These are drawing and I/O through foreign libraries.
- Trigonometric coordinates are not modelled:
  - the cos/sin positions in the mapper;
  - the depth-sync x/y;
  - the collapse-simulator and identity-signature layouts.
  Only radii and depths are modelled. The reason is floating-point trigonometry.
  The mapper's angle jitter (`np.random.normal(0, 0.05)`, `code/qkov_recursive_map.py:187`) feeds only these coordinates and is left out with them.
- Random values are inputs, never produced:
  - `np.random` and `Math.random` draws become parameters or finite draw streams.
  - A generator that runs out of draws answers `None`. The source's retry loops need no bound only because an infinite random stream eventually succeeds.
- Clock readings are parameters where a modelled value depends on them: the `now` arguments of `ReflectionModel` and the `now`/`clock` arguments of the hallucination detector's scan. Elsewhere, message, step and node ids and timestamps taken from `Date.now()`/`new Date()` are not modelled.
- Timers and animation frames (`setTimeout`, `setInterval`, `requestAnimationFrame`) become step methods that the caller applies. What is not modelled:
  - timer cancellation;
  - interleaving with user actions beyond what each step's precondition states;
  - the collapse simulator's frame loop beyond one frame: `SimulationLoop` models one frame and `LiveFrames` the intended loop. Both are listed under Findings.
- Browser glue is not modelled:
  - the `window` events and console logging of the hallucination detector's setup;
  - the reflection console's DOM popups and scrolling;
  - the boot messages of the collapse and identity consoles;
  - the thought-web console's message colours.
- `getComplexity` of the thought model (`dev-consoles/code/recursive-thought-model.js:114-126`) is not modelled. It is a display figure nothing else reads.
- Two source files are truncated:
  - `dev-consoles/code/recursive-thought-model.js` ends at line 324, inside `triggerCollapse`. Its `return true` is assumed.
  - `dev-ui-consoles/code/reflection-model.js` ends inside `generateThought`. The model covers the visible part, up to the log entry.
- Listener callbacks of the reflection model and the detector are outside code:
  - each call is recorded as a delivery, with whether it throws;
  - a listener that re-enters the system is not modelled.
  Event-type lookups on prototype keys such as `"constructor"` are treated as unknown types.
- The mapper constructor requires `nodes_per_level != 0`. In Python, 0 raises `ZeroDivisionError` in the entropy formula.
- A depth of 0 or less builds an empty graph in the mapper, as the code does. No configuration error is raised.
- The depth-sync bifurcation block is kept as written. Its guard compares a shadowed local with itself, so it never fires (`DepthSync.TemporalBifurcations`).
- The thought-web console's glyph picker, node pulse animation (`dev-consoles/code/thought-web-console.tsx:86-96`), pan and hover handlers, and every `get...Style`/colour helper are not modelled. They only feed CSS. The exceptions are the level and depth colour pickers that are modelled above.
- The collapse simulator's behaviour is modelled as follows:
  - `Start` requires a generated network, because the component generates one on mount.
  - `Start` after a full collapse resets instead of simulating, following the stale closure literally.
  - Inspection text is not modelled.
  - The mode pattern's two quote groups are independent, so `mode='schrodinger"` is accepted. This is modelled as written.
- The identity-signature console:
  - regenerating on reset is a parameter (the network generator draws from a random stream);
  - residue generation reads the node list (`thoughtNodes`) the closure sees, which is the stale one, not the network just generated;
  - the staged timers after a start are `Stage` events and are not cancelled by stop or reset;
  - `getEdgeStyle` and `getNodeColor` are left out.
- In the echo chamber, the overlap percentage and text-warp spacing are computed on exact reals, with no floating-point rounding.
- `SelfRender.Console.ResetSystem` includes the delayed level increase that follows a reset. In the source it always fires before the re-armed phase timer, so the level is 1 afterwards.
- `RecursiveMirror.Mirror.AdvanceExecution` requires an executing console. Both the interval and the step button call it only then.
- In the reflection console, the `disabled` attributes of the three buttons (`dev-ui-consoles/code/reflection-console.tsx:253-269`) are not preconditions. The handlers are modelled with their own guards in every state, a superset of the clickable states.
- In the fractal visualiser, `parseInt` on the id field is modelled for sign-and-digit strings. Other prefixes a number input cannot produce are not modelled.
- In the thought drawer, drawer ids come from a counter carried in the state, as the source's `useUniqueId` ref counter (`dev-consoles/code/recursive-thought-drawer.tsx:4-7`). The source's initial state is not lazy, so every render calls `generateId` twice more (lines 20-34) and its ids have gaps; the model's counter does not skip. Only uniqueness and freshness are relied on, and both hold either way. Log entries' `Date.now()` stamps (line 38) are not modelled.
- ThoughtModel.ToggleOpen: "entropy never decreases" is stated only from entropy at most 1. An echo's entropy is scaled by 1.2 and can exceed 1, and the next toggle caps it back to 1 (`ThoughtModel.ToggleCanLowerEchoEntropy`).
- CollapseSim.ParseDecimal: its own contract states only that the result is non-negative. The exact value is proved for a run of digits (`CollapseSim.ParseWhole`) and for `0.` followed by digits (`CollapseSim.ParseFraction`), not for other digit-and-dot runs.
- RecursiveMirror.StackCyclesDescend: the render stack's order is stated by cycle and by `StepFollows`, which also allows the start-up event to record the same depth twice. It does not state a strict depth order within a cycle.

## Findings

| source | as written | input that shows it | evidently intended | confidence | as-written member | corrected member |
|---|---|---|---|---|---|---|
| dev-consoles/code/recursive.collapse.sim.tsx:172-254 | `startSimulation` requests a frame for the `simulationLoop` of its own render, where `isSimulating` is still false; the counter restarts at 0, so frame 1 tests `1 % framesToSkip < 1`, false for every slider speed (10 to 60 frames), and the loop then stops on the false flag. `processCollapseStep` has no other caller, so the cascade never runs | any start from a stopped state, at any slider speed from 0.5 to 3 | the loop keeps running while the simulation is on, and runs the cascade step every 30 / speed frames | not executed | CollapseSim.StartedLoopStops | CollapseSim.StartedLiveLoopSteps |
