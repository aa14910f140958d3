# cp-ebiten glue logic, modelled in Dafny

cp-ebiten glues the Chipmunk physics port `cp` to the Ebiten game library:
it draws physics shapes with an antialiasing shader, lets a mouse or touch
pointer drag bodies around, and ships a handful of demos. This project models
the logic that lives in the glue itself (not in `cp` or Ebiten) and proves
what it promises.

- **ShapeStyle** (`style.dfy`): the debug colour of a shape. `ShapeColor`
  (drawing.go) gives float colours, and the two identical `ColorForShape`
  copies (shapes.go, tumble/tumble.go) give 8-bit colours. Both use the
  precedence sensor → sleeping → idle → hashed colour. The hashed colour
  runs Robert Jenkins' six-step integer mix over the shape's hash id on
  64-bit words with wrap-around, then stretches three bytes of it to the
  body's intensity.
- **Mesh** (`mesh.dfy`): the `DrawOptions` renderer of drawing.go.
  - The fixed vertex and index layouts of the circle quad and the 8-vertex
    capsule, and the half-width and fill rules.
  - `DrawPolygon`'s neighbour, fan and ring indexing and its inset/outset
    scalars.
  - `DrawDot`, `DrawBB` and `FcolorToColor`.
  - The renderer is a class that records the batches it has submitted to the
    image.
- **Engine** (`engine.dfy`) and **Geometry** (`geometry.dfy`): an abstract
  view of the `cp` space and bodies, and of the vector helpers the glue
  calls. A space records:
  - its bodies, shapes and constraints;
  - the constraints queued for removal after a step;
  - every time step taken.
- **Grab** (`grab.dfy`): the `Grabbable`/`NotGrabbable` filters and
  `handleGrab`. The three copies of this code (input.go, game.go,
  tumble/tumble.go) are textually identical.
- **Input** (`input.dfy`): `UpdateInput`. It has a kinematic mouse body,
  the mouse joint and a table of touch proxies keyed by touch id. Polling
  Ebiten becomes a `Frame` value that carries the nearest-shape query of
  each press.
- **GameSnapshot** (`gamesnapshot.dfy`): game.go's `Update`. It exits on
  F10, flips profiling on P, calls `SetVsyncEnabled` and flips vsync on V,
  then runs the same controller as input.go.
- **Tumble** (`tumble.dfy`): the tumble demo's `Game.Update`. It differs
  from `UpdateInput` in three ways:
  - it walks every touching id, creating a proxy or dragging an existing
    one;
  - it releases touches without dragging them;
  - it ends with one `Step(1/MaxTPS)`.
- **Shapes** (`shapes.go` → `shapes.dfy`): the `AddWall` endpoint
  normalisation and sprite sizing, the `AddSegment` geometry and sizing, and
  `DrawBB`'s four lines.
- **TiledCsv** and **Tiled** (`tiled_csv.dfy`, `tiled.dfy`): the Tiled map
  demo.
  - The CSV tile-layer loader, with its Go `strings`/`strconv` semantics and
    its panic on a bad item.
  - The consecutive tile-id numbering of each tileset image.
  - One static box per map object, and the world size.
  - The integer camera (pan, zoom, rotate, `Reset`, `viewportCenter`) and
    `Update`'s keys.
  - `Draw`'s lookup of every layer cell in the tileset table.
- **Platformer** (`player.dfy`): the platformer demo's player controller.
  - Ground detection as a fold over the contact normals.
  - Gravity switched off while boosting.
  - Target speed, surface velocity and friction.
  - Air control through `LerpConst`, and the fall-speed clamp.
  - The jump on the key's rising edge, the boost and its per-frame decrement.
  - One `Update` is exactly three `Step(1/180)` substeps.
- **Chain** (`chain.dfy`): the breakable chain demo.
  - The post-solve break rule, with its removal queued until the step ends.
  - The closed-form link positions.
  - The slide-joint wiring of 8 chains of 10 links.
  - The four screen walls.
  - One `Step(1/MaxTPS)` per `Update`.
- **Fps** (`fps.dfy`): the frame counter of draw.go's `Draw`.

Assumptions the model makes explicit:

- `cp.HashValue` and the filter words are Go `uint`, taken to be 64 bits.
- Go `int` is 64 bits where `strconv.Atoi` range checks depend on it.
- `float32`/`float64` arithmetic is exact real arithmetic.
- `uint8(x)` of a float in range truncates.
- `cp.Vector.Lerp`, `cp.LerpConst` and `cp.Clamp` have the semantics stated
  in `geometry.dfy`.
- A space's damping is 1, its default, so integration is `v + g·dt`.

## Model

| member | source | states |
|---|---|---|
| ShapeStyle.HashChannels | drawing.go:334-346 | the three channels taken from bits 0-7, 8-15 and 16-23 of the mixed 64-bit hash are each in [0, 255] |
| ShapeStyle.StretchBounds | drawing.go:361-367 | a stretched channel lies in [0, intensity], is 0 at the minimum and equals the intensity at the maximum |
| ShapeStyle.StretchMonotone | drawing.go:361-367 | stretching keeps the order of two channels, in both directions |
| ShapeStyle.StretchNormalised | drawing.go:348-367 | intensity is 0.15 exactly for static bodies, else 0.75; flat channels give (intensity, 0, 0, 1); otherwise every channel is in [0, intensity], min → 0, max → intensity, order kept, alpha 1 |
| ShapeStyle.StretchNotGrey | drawing.go:357-367 | a hashed colour always has a zero channel, so it never equals the sleeping or idle grey |
| ShapeStyle.ShapeColorIdentifiesState | drawing.go:319-368 | the colour determines the state: translucent iff sensor; dark grey iff non-sensor sleeping; light grey iff awake and idle strictly past the threshold; an idle time equal to the threshold gives the hashed colour |
| ShapeStyle.ToUint8 | shapes.go:185-192 | the byte conversion truncates: the result k satisfies k ≤ x < k+1 |
| ShapeStyle.StretchByteBounds | shapes.go:188-194 | a stretched byte is a byte, at most uint8(255·intensity), and 0 at the minimum channel |
| ShapeStyle.StretchBytesRules | shapes.go:175-194 | uint8(255·intensity) is 38 exactly for static bodies, else 191; flat channels give (that, 0, 0, alpha); otherwise opaque bytes ≤ that value with a zero channel |
| ShapeStyle.ColorForShapeRules | shapes.go:146-195 | corrected ColorForShape: sensor (255,255,255,25); sleeping (12,12,12,255); idle beyond the threshold (170,170,170,255); every non-sensor colour opaque; awake shapes get the stretched hash bytes (tumble/tumble.go:280-329 is the same code) |
| ShapeStyle.StretchCopiesAgree | shapes.go:188-194 | on the same channels, the 8-bit colour is the float colour of drawing.go scaled by 255 and truncated, channel by channel |
| ShapeStyle.ColorCopiesAgree | shapes.go:146-195 | the 8-bit and float copies agree on awake shapes and differ on the sleeping grey (51 against 12 of 255) |
| ShapeStyle.FlatHashIdIsFlat | shapes.go:161-176 | hash id 119015 mixes to a word whose three low bytes are all 2 |
| ShapeStyle.FlatHashAlphaAsWritten | shapes.go:184-186 | as written, an awake dynamic shape with that hash gets NRGBA(191,0,0,1), nearly invisible, while drawing.go draws it opaque and the corrected copy gives alpha 255 (tumble/tumble.go:318-320 has the same alpha 1) |
| Mesh.CircleQuadLayout | drawing.go:93-130 | two triangles over four vertices; corners at pos ± (radius+1) on both axes; aa coordinates the corners of [-1,1]² with the same signs; fill colour everywhere |
| Mesh.FatSegmentLayout | drawing.go:142-209 | six triangles over eight vertices, all indices < 8; half-width max(radius+1, 1); fill replaced by outline exactly when radius ≤ 0; aa x (1,1,0,0,0,0,-1,-1), aa y alternating -1/+1 |
| Mesh.FatSegmentSymmetric | drawing.go:154-200 | vertex k and vertex 7-k are mirror images through the segment's midpoint, with opposite aa coordinates |
| Mesh.NeighboursInverse | drawing.go:218-221 | (i-1+count)%count and (i+1)%count stay in [0, count), wrap at the ends, are inverse to each other, and differ from i when count > 1 |
| Mesh.ExtrudeNeighbours | drawing.go:216-228 | every extrude entry is built from its two neighbours, which are in range and name the entry back |
| Mesh.InsetOutset | drawing.go:230-243 | inset ≤ 0; inset + outset = radius + 1; outset = max(2, radius+1); inset is 0 iff radius ≥ 1 |
| Mesh.FanTriangles | drawing.go:231-241 | count-2 fan triangles (0, i+1, i+2), all indices below count |
| Mesh.FanAdjacent | drawing.go:231-234 | consecutive fan triangles share vertex 0 and an edge, so the fan has no gaps |
| Mesh.RingEdges | drawing.go:244-292 | with j starting at count-1 and trailing i, edge i is (i, prev(i)) |
| Mesh.RingVisitsEachEdgeOnce | drawing.go:244-292 | the ring's edges are pairwise distinct and each vertex ends exactly the edge of its successor |
| Mesh.BBRingSides | drawing.go:64-72 | each ring edge of DrawBB's polygon is a side of the box, its ends differing in one coordinate |
| Mesh.DotQuadCentred | drawing.go:295-304 | the dot quad is a square of side size centred on pos |
| Mesh.FcolorToColorBytes | drawing.go:84-91 | each byte is the largest k with k/255 ≤ channel, and bytes survive the round trip k/255 → byte |
| Mesh.DrawOptions.constructor | drawing.go:78-82 | a new renderer has submitted nothing |
| Mesh.DrawOptions.DrawCircle | drawing.go:93-136 | submits the quad, then the zero-radius spoke from the centre of length radius-0.5 along the angle |
| Mesh.DrawOptions.DrawSegment | drawing.go:138-140 | submits a zero-radius capsule in the fill colour |
| Mesh.DrawOptions.DrawFatSegment | drawing.go:142-210 | submits exactly the capsule batch |
| Mesh.DrawOptions.DrawPolygon | drawing.go:212-293 | submits nothing; its layout has count extrude entries from the neighbours, the fan, the ring edges and the inset/outset |
| Mesh.DrawOptions.DrawDot | drawing.go:295-304 | submits nothing |
| Mesh.DrawOptions.DrawBB | drawing.go:64-72 | submits nothing, and its four-corner ring visits the sides (R,B)→(R,T)→(L,T)→(L,B) |
| Grab.FiltersComplementary | input.go:10-17 | each filter's categories miss the other's mask, the categories cover every bit, the filters reject each other, and each accepts itself and the default filter (game.go:16-23 and tumble/tumble.go:35-42 are the same code) |
| Grab.Anchor | input.go:25-30 | the anchor is the hit point when the distance is positive, else the press position |
| Grab.GrabBiasBounds | input.go:36 | the grab's error bias 0.85^60 and the default 0.9^60 both lie in (0, 1), and the grab's is the smaller, so a grab joint corrects its error faster than a default joint |
| Grab.HandleGrab | input.go:19-42 | a joint is returned iff the query hit a body of finite mass below MaxFloat64; then exactly that one new pivot is added (proxy origin to the anchor in the body's frame, MaxForce 50000, ErrorBias 0.85^60); otherwise nothing changes (game.go:25-48 and tumble/tumble.go:89-112 are the same code) |
| Input.DragConverges | input.go:82-88 | a drag removes a quarter of the offset; the velocity is 15× the offset and covers the step in 1/60 s; a proxy on its pointer stays put at rest |
| Input.Drag | input.go:85-87 | the proxy moves to lerp(old, target, 0.25) with velocity (new-old)·60 |
| Input.SurvivorsKeep | input.go:76-81 | a touch survives the release loop iff it is not both released and holding a joint; jointless touches always survive |
| Input.SurvivorsValid | input.go:76-81 | the survivors still form a valid table |
| Input.Controller.constructor | input.go:50-54 | start-up: a kinematic mouse body at the origin, no joint, no touches |
| Input.Controller.PressMouse | input.go:60-62 | on a just-pressed button the grab's result replaces the mouse joint, and its joint is added to the space; otherwise nothing changes |
| Input.Controller.PressTouch | input.go:64-74 | a fresh kinematic proxy at the touch position, filed under the id (replacing any entry), with a joint iff the grab succeeds |
| Input.Controller.PressTouches | input.go:63-75 | every just-pressed id gets a new entry; other entries are kept; the space gains exactly the new entries' joints |
| Input.Controller.PressOne | input.go:63-75 | one turn of the press loop extends the press invariant by one id |
| Input.Controller.ReleaseOrDrag | input.go:76-89 | the table becomes the survivors; the space loses exactly the dropped touches' joints; every survivor's proxy is dragged towards its touch |
| Input.Controller.ReleaseOrDragOne | input.go:76-89 | one turn of the release loop extends the release invariant by one id |
| Input.Controller.ReleaseMouse | input.go:90-93 | the mouse joint is removed and cleared only when it exists and the button was just released |
| Input.Controller.PressPhase | input.go:56-75 | the mouse grab, then every just-pressed touch's proxy, and the joints they add |
| Input.Controller.ReleasePhase | input.go:76-98 | release loop, mouse release, and the mouse body dragged towards the cursor |
| Input.Controller.UpdateInput | input.go:56-99 | the whole tick: a touch pressed this frame ends at its press position at rest; older survivors are dragged; the space's constraints change by exactly the added and dropped joints |
| GameSnapshot.Toggled | game.go:70-90 | profiling flips iff P; vsync flips iff V; SetVsyncEnabled receives the pre-flip vsync exactly when V is pressed |
| GameSnapshot.RunProfiling | game.go:70-85 | after any run, profiling equals its start value flipped once per P press (parity) |
| GameSnapshot.RunVsync | game.go:87-90 | SetVsyncEnabled is called once per V press, and the values passed keep alternating |
| GameSnapshot.VsyncFromStart | game.go:62-90 | from start-up, the first call passes false and vsync is always the negation of the last value passed |
| GameSnapshot.Game.constructor | game.go:56-63 | both toggles start false, with no SetVsyncEnabled call and a fresh controller |
| GameSnapshot.Game.Toggle | game.go:70-90 | the host state becomes Toggled of the old one |
| GameSnapshot.Game.Update | game.go:65-134 | F10 exits before anything changes; otherwise the toggles run, and the mouse grab happens iff the query hits a dynamic shape, touches are added and dropped, the dragged bodies move towards the pointers, and the space's constraints gain the new grab joints and lose the released ones, exactly as UpdateInput states |
| Tumble.Game.constructor | tumble/tumble.go:82-86 | a fresh controller with no mouse joint and no touches |
| Tumble.Game.TouchLoop | tumble/tumble.go:121-141 | every touching id is tracked afterwards; an untracked one gets a fresh proxy at rest at its position and a grab attempt; a tracked one keeps its entry and is dragged; the space gains the new entries' joints |
| Tumble.Game.TouchAll | tumble/tumble.go:121-141 | the loop carries its invariant from no id handled to all of them |
| Tumble.Game.TouchOne | tumble/tumble.go:121-141 | one turn extends the loop invariant by one id |
| Tumble.Game.TouchNew | tumble/tumble.go:125-134 | an untracked id gets a new proxy at its position, at rest, and a grab attempt, and is not dragged |
| Tumble.Game.TouchTracked | tumble/tumble.go:135-140 | a tracked id's proxy is dragged towards its position |
| Tumble.Game.PressPhase | tumble/tumble.go:115-141 | the mouse grab, then the touch loop; the mouse body does not move yet |
| Tumble.Game.ReleasePhase | tumble/tumble.go:142-157 | mouse release, release loop, mouse drag; no touch proxy moves |
| Tumble.Game.ReleaseTouches | tumble/tumble.go:146-152 | only touches that hold a joint and were just released leave, together with their joints |
| Tumble.Game.Update | tumble/tumble.go:114-161 | the whole tick, ending with exactly one step of 1/MaxTPS and an empty removal queue |
| Shapes.WallEnds | shapes.go:13-16 | the ends come back in the same or swapped order so that the first is never left of the second, and unswapped when already so |
| Shapes.WallEndsIdempotent | shapes.go:13-16 | normalising twice is normalising once |
| Shapes.WallEndsSymmetric | shapes.go:13-16 | unless both ends share an x, the wall does not depend on the order of its ends |
| Shapes.WallRadius | shapes.go:24-27 | the drawn radius is never 0: 1 for a zero radius, else the radius |
| Shapes.WallSprite | shapes.go:24-45 | the image is 2r wide and the segment length + 2r tall, centred on the segment's midpoint, and turned negatively iff b.Y < a.Y |
| Shapes.WallSpriteOrderFree | shapes.go:12-45 | a wall's sprite has the same size and place whichever order its ends come in, and the same turn unless it is vertical |
| Shapes.SegmentGeom | shapes.go:67-68 | a vertical segment centred on the body, its ends height-width apart, with radius width/2 |
| Shapes.SegmentSprite | shapes.go:73-77 | the image is width wide and height tall when height ≥ width, and centred with no turn of its own |
| Shapes.AddWall | shapes.go:12-61 | adds one shape: the normalised segment, elasticity 1, friction 1, NotGrabbable; nothing else in the space changes |
| Shapes.AddSegment | shapes.go:63-92 | adds one new dynamic body at pos and its segment, elasticity 0, friction 0.7 |
| Shapes.BBLines | shapes.go:197-203 | four lines, starting at the corners (R,B), (R,T), (L,T), (L,B) in order |
| Shapes.BBLinesClosed | shapes.go:197-203 | the lines form a closed loop around the box, each one a side of it |
| TiledCsv.TrimLeft | tiled/tiled.go:152 | a suffix of s that drops only white space and starts with something else |
| TiledCsv.TrimRight | tiled/tiled.go:152 | a prefix of s that drops only white space and ends with something else |
| TiledCsv.TrimSpace | tiled/tiled.go:152 | neither end of the result is white space |
| TiledCsv.TrimSpaceKeeps | tiled/tiled.go:152 | text that needs no trimming is left unchanged |
| TiledCsv.Split | tiled/tiled.go:152-155 | at least one part, no part holds the separator, and joining the parts gives back s |
| TiledCsv.SplitJoin | tiled/tiled.go:152-155 | splitting undoes joining when no part holds the separator |
| TiledCsv.TrimSuffix | tiled/tiled.go:155 | at most one trailing comma is dropped |
| TiledCsv.Atoi | tiled/tiled.go:157-161 | the empty string, any non-digit after the first character, or a first character that is none of digit/sign all fail; results fit in 64 bits |
| TiledCsv.AtoiItoa | tiled/tiled.go:157 | Atoi reads back the decimal text of every 64-bit integer |
| TiledCsv.ParseItem | tiled/tiled.go:157-162 | an item parses iff Atoi accepts it; failure is the panic naming the line and the item |
| TiledCsv.ParseItems | tiled/tiled.go:156-163 | one result per item, in order |
| TiledCsv.Collect | tiled/tiled.go:156-163 | success iff every result succeeds, with the values in order; otherwise the first failure |
| TiledCsv.ParseRows | tiled/tiled.go:153-164 | one row result per line, in order |
| TiledCsv.LoadRow | tiled/tiled.go:155-163 | the inner loop computes exactly the row's parse |
| TiledCsv.LoadLines | tiled/tiled.go:153-164 | the outer loop gives one row per line, or the first line's failure |
| TiledCsv.LoadLayer | tiled/tiled.go:152-164 | the loader computes exactly the layer's parse |
| TiledCsv.ParseFormattedLine | tiled/tiled.go:155-163 | every written line, with or without its trailing comma, loads as its row |
| TiledCsv.FormatLayerLines | tiled/tiled.go:152 | written layer text needs no trimming and splits back into its lines |
| TiledCsv.ParseFormat | tiled/tiled.go:152-164 | the loader reads back exactly any writable grid from Tiled's CSV text, trailing commas and all |
| Tiled.CeilDivLeast | tiled/tiled.go:192-193 | a loop stepping by d runs CeilDiv(n, d) times: the least count whose multiple reaches n |
| Tiled.TileRect | tiled/tiled.go:194 | every tile rectangle is TileWidth × TileHeight |
| Tiled.Numbered | tiled/tiled.go:190-197 | the ids are exactly firstgid … firstgid+n-1 |
| Tiled.NumberedAt | tiled/tiled.go:190-197 | id firstgid+k is the k-th tile in row-major order |
| Tiled.SheetTilesCell | tiled/tiled.go:192-196 | the tile in column c, row r has id firstgid + r·cols + c and is cut from that cell |
| Tiled.SheetTilesInside | tiled/tiled.go:192-194 | every tile's rectangle starts inside the tileset image |
| Tiled.NumberSheet | tiled/tiled.go:190-197 | the nested loop adds exactly the sheet's tiles to the table, overwriting shared ids |
| Tiled.NumberRow | tiled/tiled.go:193-196 | one row of the loop numbers the next cols ids, left to right |
| Tiled.NumberTilesets | tiled/tiled.go:168-198 | the tileset loop builds the table of all sheets in order |
| Tiled.AllTilesFrom | tiled/tiled.go:168-198 | an id that no later tileset numbers maps to that tileset's tile |
| Tiled.AllTilesOnly | tiled/tiled.go:168-198 | only ids that some tileset numbers are in the table |
| Tiled.WorldSizeAsWrittenClips | tiled/tiled.go:206 | with 32×16 tiles on a 10×10 map, the world size as written cuts off a tile of the first row |
| Tiled.WorldSize | tiled/tiled.go:206-207 | every tile of the map, drawn at (x·TileWidth, y·TileHeight), lies inside the world image |
| Tiled.WorldSizeSquareTiles | tiled/tiled.go:206 | with square tiles the size as written is the right one |
| Tiled.ObjectBox | tiled/tiled.go:203 | the static box covers exactly the object's rectangle |
| Tiled.ObjectBoxes | tiled/tiled.go:202-204 | one box per object, in order |
| Tiled.AddObjectBoxes | tiled/tiled.go:202-204 | the object loop builds exactly those boxes |
| Tiled.ResetState | tiled/tiled.go:132-137 | reset puts position, zoom and rotation to zero and keeps the viewport |
| Tiled.ResetIdempotent | tiled/tiled.go:132-137 | resetting twice is resetting once, and the viewport survives |
| Tiled.Camera.constructor | tiled/tiled.go:214-219 | the viewport is the world image's size; position (-100,-70), zoom 100, rotation 0 |
| Tiled.Camera.ViewportCenter | tiled/tiled.go:94-99 | the centre is half the viewport |
| Tiled.Camera.PanX | tiled/tiled.go:224-229 | x moves by -1, 0 or +1 for the held keys, and nothing else changes |
| Tiled.Camera.PanY | tiled/tiled.go:230-235 | y moves by -1, 0 or +1 for the held keys, and nothing else changes |
| Tiled.Camera.ZoomBy | tiled/tiled.go:237-242 | the zoom moves by -1, 0 or +1 for Q and E, and nothing else changes |
| Tiled.Camera.Steer | tiled/tiled.go:224-250 | the camera after the held keys is Moved of the old camera |
| Tiled.Camera.Reset | tiled/tiled.go:132-137 | the camera becomes ResetState of the old camera |
| Tiled.Step | tiled/tiled.go:224-229 | a key pair gives -1, 0 or +1: negative iff only minus is held, positive iff only plus is held |
| Tiled.MovedBy | tiled/tiled.go:223-250 | the viewport never changes; Space resets; otherwise each axis, the zoom and the rotation move by at most one, towards the held keys, and opposite keys cancel |
| Tiled.Mirror | tiled/tiled.go:224-242 | the mirrored keys step the other way on each axis and on the zoom |
| Tiled.MovedUndo | tiled/tiled.go:224-242 | without R or Space, the mirrored keys undo a frame's movement and zoom |
| Tiled.CellAt | tiled/tiled.go:272-277 | a cell draws iff its row and column exist and its id has an image; then its tile is drawn at (x·TileWidth, y·TileHeight), else the demo panics |
| Tiled.ColumnCells | tiled/tiled.go:270-279 | one result per row of the column, top to bottom |
| Tiled.ColumnResults | tiled/tiled.go:269-280 | one result per column, in order |
| Tiled.ColumnOk | tiled/tiled.go:270-279 | a column draws without panic iff every cell of it is drawable |
| Tiled.DrawLayerOk | tiled/tiled.go:269-280 | the layer draws without panic iff every cell of the map is drawable |
| Tiled.Game.constructor | tiled/tiled.go:209-220 | the game holds the parsed map, the tile table, the boxes and the camera, with the physics overlay off |
| Tiled.Game.Update | tiled/tiled.go:223-261 | the camera moves as Moved says, and a P press toggles the physics overlay |
| Tiled.Game.Draw | tiled/tiled.go:263-280 | the tile loop computes exactly DrawLayer: every tile column by column, or the first panic |
| Tiled.Game.DrawColumn | tiled/tiled.go:270-279 | the inner loop computes exactly the column's tiles or its first panic |
| Tiled.NewGame | tiled/tiled.go:139-221 | a bad layer item panics before anything is built; otherwise the game has the parsed layer, all tilesets numbered, one box per object, and a camera over the whole world |
| Platformer.Lowest | player/player.go:40-48 | the grounding normal never points up |
| Platformer.LowestIsMinimum | player/player.go:40-50 | the grounding normal is at least as low as every negated contact normal and is zero or one of them; it points down iff some contact normal has a positive Y |
| Platformer.GroundNormal | player/player.go:41-48 | the arbiter loop computes exactly Lowest |
| Platformer.GravityFor | player/player.go:56-60 | for a non-zero gravity, the integrator's gravity is zero iff the jump is held and boost remains; otherwise it is the space's gravity |
| Platformer.TargetVx | player/player.go:63-70 | -500 iff only left is held, +500 iff only right is held, 0 iff both or neither |
| Platformer.ControlledBounds | player/player.go:82-89 | the vertical speed is never below -900 and is unchanged above it; on the ground the horizontal speed is kept; in the air it moves towards the target by at most PlayerAirAccel·dt without overshooting |
| Platformer.FeetFriction | player/player.go:76-80 | friction 2.5 on the ground, 0 in the air |
| Platformer.Kick | player/player.go:146 | a jump adds -jumpV to the vertical speed and leaves the horizontal one |
| Platformer.JumpBoost | player/player.go:148 | boost × jumpV = JumpBoostHeight, and the boost is positive |
| Platformer.BoostLastsEightUpdates | player/player.go:145-157 | with jumpV = √200000, a fresh boost is still positive after 7 decrements of 1/60 and gone after 8 |
| Platformer.Player.constructor | player/player.go:31-35 | no boost, not grounded, no previous jump key |
| Platformer.Player.UpdateVelocity | player/player.go:37-90 | grounded iff the lowest normal points down; the boost is untouched; the new velocity is Stepped; vy ≥ -900; the feet's surface velocity is (-targetVx, 0) and their friction follows groundedness |
| Platformer.Player.Substep | player/player.go:152 | one Step(1/180) records its dt; the new velocity is Substepped: the velocity function with the space's gravity, then the solver's change; the velocity handed to the solver never falls faster than -900 |
| Platformer.Player.Jump | player/player.go:141-149 | only on a grounded rising edge of the key: the kick and a fresh boost |
| Platformer.Player.Substeps | player/player.go:151-154 | exactly three steps of 1/180, the velocity composed through them with each step's contacts and solver change; grounded iff the last step's lowest normal points down; the last velocity handed to the solver is at least -900 |
| Platformer.Player.Update | player/player.go:140-160 | the jump check, then three substeps from the kicked velocity (ThreeSubsteps), the boost reduced by 1/60, the key state remembered, grounded as the last step's contacts say, and the last velocity handed to the solver at least -900 |
| Platformer.FreeFallClamped | player/player.go:82-89 | whatever the input velocity, the velocity function leaves vy ≥ -900 before the solver's change; with no solver change the substep's result itself has vy ≥ -900 |
| Platformer.IdleOnGround | player/player.go:55-89 | with no key held on the ground, a body at rest under gravity (0, 2000) leaves the velocity function at (0, 100/9), one substep of gravity |
| Platformer.SolverKeeps | player/player.go:152-154 | a substep leaves the velocity unchanged iff the solver's change exactly cancels the velocity function's |
| Platformer.RestsOnGround | player/player.go:55-89 | an idle player at rest on the ground stays at rest through a substep iff the solver pushes back exactly (0, -100/9) |
| Platformer.FloorGrounds | player/player.go:40-50 | a single floor contact with normal (0, 1) grounds the player |
| Chain.ShouldBreakIff | chain/chain.go:27-38 | a joint breaks iff impulse > 0.9·MaxForce·dt, strictly; an unlimited joint never breaks |
| Chain.PostSolve | chain/chain.go:27-38 | a strained joint's removal is queued, not done; constraints are unchanged |
| Chain.PostSolveThenStep | chain/chain.go:23-38 | a joint is gone after the step iff it broke during it |
| Chain.ChainsSymmetric | chain/chain.go:72 | chains are 40 apart, from 160 to 440, and X(i) + X(7-i) = 600 |
| Chain.LinksStacked | chain/chain.go:73 | the first link is at y = 21 and each next one 36 lower |
| Chain.LinkJoint | chain/chain.go:80-87 | a slide joint of range [0, 6] from the link's top; to (pos.X, 0) on the static body for the first link, else to the previous link's bottom |
| Chain.JointsStartTaut | chain/chain.go:71-87 | every joint starts exactly at its maximum length, straight down |
| Chain.AddLink | chain/chain.go:71-93 | one new dynamic segment body at pos and one slide joint to prev or the static body, with MaxForce 80000, the breakable hook and CollideBodies off |
| Chain.AddChain | chain/chain.go:68-94 | ten links, each wired as LinkOk says, all fresh; the space gains exactly their bodies, shapes and joints |
| Chain.AddChains | chain/chain.go:66-95 | eight chains, 80 bodies and shapes, and exactly their joints |
| Chain.WallPairs | chain/chain.go:56-58 | pair k is points 2k and 2k+1 |
| Chain.WallsOutlineScreen | chain/chain.go:50-55 | the four walls run around the screen's edges, each joined to the next at a corner |
| Chain.AddWalls | chain/chain.go:56-58 | one wall on the static body per pair, in order |
| Chain.Game.constructor | chain/chain.go:44-104 | gravity (0,100); sleeping after 0.5 s; 4 walls + 80 links; every chain wired as ChainOk says; the constraints are exactly the link joints |
| Chain.PostSolveAll | chain/chain.go:27-38 | the hooks of one step queue exactly the breakable joints whose impulse exceeds the limit; nothing else changes |
| Chain.NextLink | chain/chain.go:73-93 | one more link of the chain: the space gains exactly its body, shape and joint, and every link so far is wired as LinkOk says |
| Chain.Game.Update | chain/chain.go:106-110 | the pointer handling as UpdateInput states (grab, touches, dragged bodies, the joints added and released), then exactly one step of 1/MaxTPS after which the constraints are those the pointer handling left minus the already queued ones and exactly the strained breakable joints |
| Fps.Tick | draw.go:19-27 | the frame is counted; once a second has passed, fps takes the count including this frame, the count restarts and lastFps becomes now; otherwise fps and lastFps keep their values |
| Fps.EveryFrameCounted | draw.go:22-27 | over any run, pending frames plus calls equal the published fps values plus the frames still pending |
| Fps.FirstDrawPublishes | draw.go:14-27 | from the zero state, the first Draw at a Unix time publishes fps = 1 |
| Fps.RunKeepsOrder | draw.go:19-27 | with a clock that never goes back, lastFps never passes the current time and the count stays non-negative |
| Fps.FpsCounter.constructor | draw.go:14-16 | all four variables start at zero |
| Fps.FpsCounter.Draw | draw.go:18-27 | the variables become Tick of the old ones at the clock reading in seconds |

## Left out

- The physics library `cp` is not part of this model. Solving, collision
  detection, arbiter iteration, `PointQueryNearest` and body integration
  inside `Step` are not modelled. The model keeps:
  - `Step` records its dt and runs the queued post-step removals;
  - query results and contact normals are inputs;
  - the player's velocity function is applied explicitly before each step's
    bookkeeping;
  - the solver's change to a body's velocity in a step is an input
    (`StepSolving`'s `dv`, the player's `Solve.dv`), and the impulse each
    joint took in a step is an input map (Chain).
- Ebiten, gg and image I/O (`DrawTrianglesShader`, `DrawImage`,
  `NewImageFromImage`, debug printing) are not modelled. Keyboard, mouse
  and touch polling become boolean and position inputs (`Frame`, `Keys`,
  `Held`, `HostKeys`).
- The Kage shader source and the shader files: GPU code, not modelled.
- float32/float64 rounding: all arithmetic is exact real arithmetic.
  `Normalize`, `ForAngle`, `Distance` and `math.Sqrt` results are
  parameters. Examples: the capsule's unit normal, a wall's length, the
  player's `jumpV`, given with `jumpV² = 200000`.
- Mesh: the miter offsets of `DrawPolygon` (a float division) and the
  `acos` turn angle of `AddWall`'s sprite are not modelled; only which
  vertices they are built from, and the turn's sign.
- `AddWall`'s and `AddSegment`'s draw callbacks and images are not
  modelled; their sizes, offset and turn sign are.
- game.go: the `os.Exit`, `pprof` and `os.Create` side effects are not
  modelled; only the booleans and the `SetVsyncEnabled` arguments are.
  game.go's `Draw` is rendering.
- draw.go: the rest of `Draw` (fill, shape callbacks, debug text) is
  rendering. `time.Now` is the `unixNano` parameter.
- Tiled:
  - file and XML decoding and image decoding are not modelled; the map
    attributes, the layer text and the tileset image sizes are inputs;
  - the `fmt.Println` before the panic is not modelled;
  - the camera's `worldMatrix`, `Render`, `ScreenToWorld` and `String` are
    matrix and float code, not modelled;
  - `AddStaticBox` is not part of this model; a box is its centre and size;
  - the inner `cpebiten.Game` update and the physics overlay drawing are not
    modelled.
- Tiled.NewGame: requires positive map and tile sizes. The source would
  loop forever on a zero tile size and make no world image for a
  non-positive size.
- Tiled.NewGame: builds the world image with the corrected `WorldSize`
  (see Findings).
- Platformer: the demo's `NewGame` scene (walls, boxes, player body) and
  its `cpebiten.Update` call are not modelled. The game.go `Update` it
  calls is GameSnapshot.
- Chain:
  - the ball (`AddCircle`) and `Space.Iterations` are not modelled;
  - `BreakableJointPostStepRemove` is the removal `Step` performs at its end;
  - a post-step callback keyed by a joint that is already queued is queued
    once, as the library does.
- Platformer.Player.Substep: the contact solver's velocity change is an
  input, not computed; the -900 fall limit is promised for the velocity the
  velocity function hands to the solver, not for the velocity after it.
- Platformer.Player.Substeps: same as Substep, for each of the three steps.
- Platformer.Player.Update: same as Substep, for the three steps after the
  jump check.
- Chain.Game.Update: the impulses map stands for what the solver reports;
  a joint absent from it (its bodies asleep) runs no hook in that step.
- Chain.PostSolve and Chain.ShouldBreak require dt > 0; the library's time
  step is always positive.
- Chain.Game.Update, Tumble.Game.Update: require maxTPS > 0, which Ebiten
  guarantees.
- Scene helpers `AddBox`, `AddCircle`, tumble's `addBox`/`addCircle` and
  the random scene of tumble's `NewGame`: engine and image calls only, not
  modelled.
- Input.Controller.UpdateInput: the touch tables are keyed by integer ids.
  Iteration order over Go maps is not modelled. Its result does not depend
  on it.
- TiledCsv.Atoi: Go `int` is taken to be 64 bits. Code points stand in for
  UTF-8 bytes.

## Findings

| source | as written | input that shows it | evidently intended | confidence | as-written member | corrected member |
|---|---|---|---|---|---|---|
| shapes.go:185 (and tumble/tumble.go:319) | flat hash channels give `NRGBA{R: uint8(255*intensity), A: 1}`: alpha 1 of 255 | an awake dynamic shape whose hash id is 119015 (mixed channels all 2) gets NRGBA(191,0,0,1), nearly invisible | alpha 255, like every other non-sensor colour and like drawing.go's float copy (`A: 1` on a 0..1 scale) | not executed | ShapeStyle.FlatHashAlphaAsWritten | ShapeStyle.ColorForShapeRules |
| tiled/tiled.go:206 | world size is `Width*TileHeight` by `Height*TileWidth` (tile axes swapped) | a 10×10 map of 32×16 tiles gives a 160×320 world, so the tile at column 9 of row 0 (drawn at x = 288) lies outside it | `Width*TileWidth` by `Height*TileHeight`, which contains every tile | not executed | Tiled.WorldSizeAsWrittenClips | Tiled.WorldSize |
