# Gesture virtual keyboard — Dafny model

This project models the part of the webcam "virtual keyboard" that is the program's own
logic, and proves properties of it. It covers two things:

- the **layout**: three rows of ten key labels become a row-major list of 85x85 buttons,
  with the button for row i, column j at (100*j+50, 100*i+50);
- the **pinch gesture**, run for each detected hand from its two fingertip pixels (index
  and middle tip). The state is a debounce flag `pressed` and the typed text `textString`.
  - While idle, a button fires when the index tip lies in its closed rectangle and the
    tips are at most 30 px apart on both axes. Firing sets the flag and appends the label.
  - While held, the flag clears when the tips are more than 40 px apart horizontally,
    and the scan stops there.

The smart-light program uses the same layout and gesture. In it, the keys "R", "G" and "B"
also ask the first online bulb for pure red, green or blue (`main(colour)`). That request is
guarded by whether a bulb was found and whether it supports RGB.

Modules:

- `Wrappers`: `Option`.
- `Layout`: `Button`, the key grid `Keys`, and the layout as functions (`Cell`, `Row`,
  `Grid`). Lemmas cover order, count, non-overlap and fit on the 1280x720 frame.
- `Gesture`: the debounce state `Debounce` and a hand's fingertips `Hand` (each an
  `Option` of a pixel). Also here:
  - the closed-form meaning of one scan, `Scan`: the first button that fires when idle,
    and a release when held;
  - its extension to a hand (`HandStep`), a frame of hands (`FrameStep`) and a run of
    frames (`Session`);
  - the debounce lemmas.
- `VirtualKeyboard`:
  - the `Keyboard` class, whose `buttonList` field the nested layout loop appends to;
  - the hit-test loop `HitTest`, written as in the program (flag flipped mid-loop,
    `break` on release) and proved equal to `Scan`;
  - the per-frame loop over hands, and the whole run.
- `SmartLightControl`:
  - the module-level layout loop;
  - the label-to-colour choice `ColourFor`;
  - the `main` guard `MainCall`, with the bulbs as `Bulb` values that only record RGB
    support;
  - the hit-test loop with dispatch. It records, in order, each colour request and each
    append as an `Effect`.

Facts about the program that the model keeps as they are:

- Only "R", "G" and "B" are dispatched, each to a colour request.
- With an empty button list a held press is never released, because the release test sits inside the loop over buttons.
- The rectangle test is inclusive on all four sides.

What some lemmas are for:

- `VirtualKeyboard.OneRowScenario` uses the program's 100 px pitch and 85 px buttons on a one-row grid "On", "Off", "Red".
- `Gesture.SessionFlatten` shows that a run of frames is one frame step over its hands taken one after another (`Gesture.Flatten`). `Gesture.FlattenMem` shows every hand of that sequence comes from one of the frames. With these, `Gesture.SessionHeldPinchTypesNothing` and `Gesture.SessionPinchTypesAtMostOnce` carry the held-pinch lemmas from a sequence of hands to a whole run of frames.

## Model

| member | source | states |
|---|---|---|
| Layout.KeyboardLayout | VirtualKeyboard.py:5-23 | the keyboard has 30 buttons; the one at index 10*i+j has top-left (100*j+50, 100*i+50), size 85x85 and label keys[i][j] (row-major) |
| Layout.GridAt | VirtualKeyboard.py:21-23 | for any grid of w labels per row, the nested loop puts the button for row i, column j at index i*w+j |
| Layout.GridLength | VirtualKeyboard.py:21-23 | a grid of w labels per row yields rows*w buttons |
| Layout.RowAt | VirtualKeyboard.py:22-23 | within a row, the j-th button is the one for column j |
| Layout.GridDisjoint | VirtualKeyboard.py:6-23 | no two buttons of any grid layout overlap, even with inclusive borders (85 px buttons, 100 px pitch) |
| Layout.DisjointIffNoCommonPoint | VirtualKeyboard.py:81 | two closed rectangles are disjoint exactly when no pixel lies in both |
| Layout.GridInFrame | VirtualKeyboard.py:48-49 | a grid of at most 6 rows of at most 12 keys lies wholly on the 1280x720 frame |
| Layout.KeyboardFitsFrame | VirtualKeyboard.py:17-23 | the keyboard's buttons are 85x85, pairwise disjoint and all on the 1280x720 frame |
| VirtualKeyboard.Keyboard.constructor | VirtualKeyboard.py:12-14 | a new keyboard's list is exactly the layout (an empty list, then one layout pass) |
| VirtualKeyboard.Keyboard.CreateLayout | VirtualKeyboard.py:16-23 | the layout pass appends the 30 buttons after whatever the list held, so each call grows it by 30 |
| VirtualKeyboard.HitTest | VirtualKeyboard.py:76-90 | the button loop, with its mid-loop flag change and break, yields exactly the closed-form scan: first firing button when idle, release iff spread and list non-empty when held |
| VirtualKeyboard.HitTestFrame | VirtualKeyboard.py:66-90 | the loop over hands applies the scan to each hand with both tips known, in order, skipping the others |
| VirtualKeyboard.RunVirtualKeyboard | VirtualKeyboard.py:40-100 | starting idle with empty text on a fresh keyboard, the run's text is that of the session over the frames |
| VirtualKeyboard.PinchTypesTopLeftKey | VirtualKeyboard.py:79-90 | a pinch at (60,60)/(70,70) types "Q" and holds; a (50,5) separation then releases without typing |
| VirtualKeyboard.OneRowScenario | VirtualKeyboard.py:21-90 | on the grid "On","Off","Red" a pinch at (60,60)/(70,70) types "On"; a (50,5) separation then releases |
| Gesture.FirstFiring | VirtualKeyboard.py:79-86 | the result is the least index whose button contains the index tip with both tip separations at most 30, or none when no button qualifies |
| Gesture.ScanFromIdle | VirtualKeyboard.py:79-86 | from idle, the scan presses iff some button fires, and then appends exactly the first such button's label; otherwise the state is unchanged |
| Gesture.ScanWhileHeld | VirtualKeyboard.py:87-90 | while held, nothing is appended, and the flag clears iff the horizontal separation exceeds 40 and the list is non-empty |
| Gesture.HeldIgnoresVertical | VirtualKeyboard.py:88 | while held, the vertical positions of the tips do not influence the scan |
| Gesture.HysteresisBand | VirtualKeyboard.py:83-88 | a horizontal separation in 30 < abs(dx) <= 40 neither presses nor releases |
| Gesture.NoOpCases | VirtualKeyboard.py:75-76 | a hand with a missing fingertip, or an empty button list, leaves flag and text unchanged |
| Gesture.HandAppendsAtMostOne | VirtualKeyboard.py:75-90 | a hand appends nothing or exactly one button's label (a fire turns later iterations into the release branch, which cannot release since abs(dx) <= 30) |
| Gesture.FiresOnlyButtonHit | VirtualKeyboard.py:76-86 | on a non-overlapping layout, a firing button is the first firing one and no other button holds the index tip |
| Gesture.FrameStepAppend | VirtualKeyboard.py:58-90 | processing hands in two batches is processing them in one |
| Gesture.SessionFlatten | VirtualKeyboard.py:58-90 | a run of frames is the concatenation of their hands |
| Gesture.HeldPinchTypesNothing | VirtualKeyboard.py:79-90 | while no hand spreads its tips beyond 40 px, a held state stays held with the same text |
| Gesture.PinchTypesAtMostOnce | VirtualKeyboard.py:79-90 | while no hand spreads its tips, at most one label is typed over any sequence of hands |
| Gesture.FlattenMem | VirtualKeyboard.py:58-66 | every hand of the flattened frames is a hand of one of the frames |
| Gesture.SessionHeldPinchTypesNothing | VirtualKeyboard.py:58-90 | over a run of frames in which no hand spreads its tips beyond 40 px, a held state stays held with the same text |
| Gesture.SessionPinchTypesAtMostOnce | VirtualKeyboard.py:58-90 | over a run of frames in which no hand spreads its tips, at most one label is typed |
| Gesture.FrameTyped | VirtualKeyboard.py:66-90 | over a run of hands the text grows by a concatenation of at most as many labels as hands in total, each a button's label (the per-hand bound is `HandAppendsAtMostOne`) |
| SmartLightControl.BuildButtonList | SmartLightControl.py:68-74 | the module-level loop builds exactly the same layout as the keyboard class |
| SmartLightControl.MainCall | SmartLightControl.py:30-53 | a colour is set iff at least one bulb was found and the first supports RGB, and the colour set is exactly the one asked for; no bulb found iff the list is empty |
| SmartLightControl.ColourForPrimaries | SmartLightControl.py:138-146 | only "R", "G", "B" ask for a colour; "R" asks for (255,0,0), "G" for (0,255,0), "B" for (0,0,255); different labels ask for different colours |
| SmartLightControl.ColourKeysOnKeyboard | SmartLightControl.py:138-146 | on the keyboard exactly the buttons at (0,3), (1,4), (2,4) ask for a colour |
| SmartLightControl.DispatchOrder | SmartLightControl.py:137-148 | a press ends with its label appended; a colour request, if any, is the only one and comes before the append, and sets the key's colour when the first bulb supports RGB |
| SmartLightControl.HitTestAndDispatch | SmartLightControl.py:129-152 | the dispatching button loop has the same state transitions as the keyboard's, and its effects are exactly the first firing key's request-then-append, or none |
| SmartLightControl.HitTestFrameAndDispatch | SmartLightControl.py:118-152 | the loop over hands gives the frame's state and its effects in hand order |
| SmartLightControl.RunSmartLight | SmartLightControl.py:90-164 | starting idle with empty text, the run's text and effects are those of the session over the frames |
| SmartLightControl.HandEffectsAgree | SmartLightControl.py:128-152 | per hand, the text grows by exactly the appended labels, and there is at most one colour request, made only on a press |
| SmartLightControl.FrameEffectsAgree | SmartLightControl.py:118-152 | per frame, the text grows by exactly the appended labels in order, and there are at most as many colour requests as hands in total (the per-hand bound is `HandEffectsAgree`) |
| SmartLightControl.PinchOnRedKey | SmartLightControl.py:132-148 | a pinch on "R" asks for (255,0,0) and then appends "R"; with one RGB bulb the request sets (255,0,0) |

## Left out

- Camera capture, flipping, colour conversion, drawing and display (`draw`, `drawAll`, `imshow`, `waitKey`): I/O and UI. The quit key is modelled only as the end of the frame sequence.
- Hand landmark detection and the conversion of normalised landmarks to pixels: a foreign library working on floats. The fingertip pixels are inputs, `None` when the conversion fails.
- The smart-bulb SDK (login, device discovery, status update, the colour command itself, logout) and the credentials from the environment. A bulb is only its RGB-support flag, taken as it stands after the status update. The request's outcome is recorded as an effect, not performed. Failures propagating out of the SDK are not modelled.
- The program tracks at most two hands per frame (`max_num_hands=2`); the model accepts a frame with any number of hands, which includes that case.
- The asyncio event loop, `print` diagnostics, and the unused `fourcc` and `randint`.
- SmartLightControl.MainCall: does not model the status update `main` awaits before reading RGB support, because it is a network call; RGB support is the value after that update.
