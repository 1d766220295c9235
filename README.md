# Ttap subtitle reader: a verified model of its sequential core

Ttap watches a fixed region of the screen for subtitles, reads them with OCR
and speaks them aloud. Most of the repository is user interface, speech
synthesis and thread plumbing. This project models the four pieces of
sequential logic in it, in Dafny, and proves properties of them:

- **`Ocr`** (`ocr.dfy`, from `ocr.py`): the colour test `colour_close`, the
  progress-bar palette, `smart_crop` and the debug image path of `get_text`.
  `smart_crop` first crops a frame to the fixed window
  `(500, 1300, 2380, 1650)`, which is 1880 by 350 pixels. It then scans the
  middle column of the window (x = 940) from the top down. At the first pixel
  within radius 10 of a palette colour, at row `y`, it cuts the window to
  `(0, 0, width - 1, y - 1)`. If no pixel matches, it returns the window
  unchanged. A frame is an `Image`: a width, a height and rows of RGB triples.
  A crop is a sub-grid. The model requires the frame to cover the window,
  because Pillow pads crops that leave the frame. A reversed crop box is
  reported as an error (`Invalid`). So a match at row 0, which asks for
  bottom edge -1, is reported as `Invalid(LowerBeforeUpper)`; a precondition
  does not exclude it. `SmartCrop` is a method with the source's `for` loop.
  Its specification is the recursive `ScanColumn`, whose contract says the
  row it finds is the least matching row.
- **`Speak`** (`speak.dfy`, from `speak.py`): `SpeechClient` is a class with
  the fields `_thread` (`thread: Worker?`) and `_kill_flag` (`killFlag`), the
  shared deque (`queue`) and a log of what `_speak` was given (`spoken`).
  A thread is an object of the empty class `Worker`. Spawning allocates a
  fresh one. Joining removes the worker from the ghost set `live` of workers
  that were started and not joined. `WorkerPass` is one pass of
  `_thread_function`. With an empty deque it is one sleep of the wait loop and
  changes nothing. Otherwise it pops the head and speaks it. `ThreadFunction(turns)`
  runs the worker loop for `turns` passes granted by the scheduler.
- **`NewSpeak`** (`newspeak.dfy`, from `newspeak.py`): the items
  `Utterance(text, waitFinish)` and `Terminate` that `output_text` and
  `all_text_complete` enqueue. `Step` is one pass of the body of
  `speech_digester_loop`, and `OnEnd` is the finished-utterance callback.
  `Run` runs the loop over a script. `SpeechDigesterLoop` is the loop itself,
  written imperatively over `local_queue` and `ended`. The speech engine is
  a log of the calls made on it (`stop`, `say`, `iterate`, `endLoop`). The
  multiprocess queue becomes a parameter: `incoming[i]` is what
  `sayQ.get(False)` returned in iteration `i`, with `None` for an empty queue.
  `finished[i]` says whether the finished-utterance callback fired during
  that iteration's engine calls.
- **`ScreenCapture`** (`screen_capture.dfy`, from `screen_capture_ui.py`):
  `ScreenCaptureApp` holds `start_x`, `start_y` and `rect_id`. `OnPress`
  records the press point. `OnRelease` does the source's two conditional
  swaps and returns the arguments it passes to `set_bounding_box`. These are
  proved equal to the doubled `Spanned` box, an independent min/max
  definition of the box spanned by two corners. Without an earlier press, the
  source's comparison of `None` with a number raises. The model then returns
  `None`, and no box is set.

`wrappers.dfy` holds the `Option` type shared by the modules.

Where the design description and the code disagree, the model follows the code:

- The design describes a region analyser that samples five columns bottom-up,
  takes the mode of the rows and subtracts a bar thickness. The code scans
  one column top-down and cuts at the first match.
- The design's tolerance is a squared radius of about 9. The code's radius
  is 10, a squared radius of 100.
- The design's frame selector, text normaliser and capture loop do not appear
  in `ocr.py`: `main.py` and `gui.py` use an `OCR` class that `ocr.py` does
  not define. That class is not part of this model.
- The design asks `set_bounding_box` to reject boxes that are not strictly
  ordered. `on_release` makes no such check, and a zero-width drag is passed on.
- The annotation `-> str` on `smart_crop` is wrong (`ocr.py:10`). The function
  returns an image, and the model returns a `CropResult`.

## Model

| member | source | states |
|---|---|---|
| `Ocr.ColourCloseSymmetric` | ocr.py:6-8 | `colour_close(a, b, r)` equals `colour_close(b, a, r)` |
| `Ocr.ColourCloseReflexive` | ocr.py:6-8 | every colour is close to itself for every radius, negative ones included |
| `Ocr.ColourCloseChannelBound` | ocr.py:6-8 | if two colours are close within `r`, each channel differs by at most `abs(r)` |
| `Ocr.ColourCloseWithinHalfRadius` | ocr.py:6-8 | two colours whose channels all differ by at most half of `abs(r)` are close within `r` |
| `Ocr.ColourCloseMonotone` | ocr.py:6-8 | a pair close within `r` stays close within any `r'` with `abs(r) <= abs(r')` |
| `Ocr.AnyClose` | ocr.py:17 | the `any(...)` over the palette holds exactly when some palette entry is within the radius |
| `Ocr.ScrollbarMatchUnambiguous` | ocr.py:4 | the three palette colours lie so far apart that a pixel is within radius 10 of at most one of them |
| `Ocr.Crop` | ocr.py:11 | a correctly ordered box inside the frame gives a well-formed sub-grid of size `(right-left) x (lower-upper)` whose pixel `(x, y)` is the source pixel `(left+x, upper+y)`; `right < left` and `lower < upper` are errors |
| `Ocr.Window` | ocr.py:11 | the first crop is 1880 x 350, and its pixel `(x, y)` is screen pixel `(500+x, 1300+y)` |
| `Ocr.ScanColumn` | ocr.py:14-18 | a found row is the least row at or after the start whose pixel in column `x` is a palette colour; if nothing is found, no row of the column matches |
| `Ocr.ScanColumnReadsOnlyColumn` | ocr.py:14-16 | two frames of one height that agree on column `x` give the same scan result |
| `Ocr.MiddleColumnDecides` | ocr.py:11-16 | whether and where `smart_crop` cuts depends only on screen column 1440, rows 1300 to 1649 |
| `Ocr.SmartCrop` | ocr.py:10-19 | with no match the window comes back uncropped; a match at row 0 is reported as `Invalid(LowerBeforeUpper)`; a match at the least row `y > 0` gives the window cut to `(0, 0, width-1, y-1)`, which is 1879 wide and `y-1` high |
| `Ocr.ReplaceChar` | ocr.py:25 | `replace` of one character keeps the length and changes exactly the positions holding that character |
| `Ocr.DebugPath` | ocr.py:25 | the path is `ss/`, then a name as long as the text, then `.png`; the name has no `.` or `/` and equals the text wherever the text has neither |
| `Speak.SpeechClient.constructor` | speak.py:21-30 | a new client has no thread, a clear kill flag and the given deque |
| `Speak.SpeechClient.Start` | speak.py:32-48 | without a thread, or when forced, the flag is cleared and a fresh thread is installed, and a forced start leaves the old worker live (not stopped or joined); an unforced start while a thread exists changes nothing |
| `Speak.SpeechClient.Stop` | speak.py:50-60 | with a thread, the flag is set, the worker is joined (no longer live) and `_thread` becomes `None`; without one, nothing changes |
| `Speak.SpeechClient.Restart` | speak.py:63-69 | from any state, afterwards a fresh thread exists, the flag is clear and the previous thread has been joined |
| `Speak.SpeechClient.WorkerPass` | speak.py:86-88 | a pass on a non-empty deque removes exactly the head and speaks it, leaving the rest untouched; on an empty deque it changes nothing |
| `Speak.SpeechClient.ThreadFunction` | speak.py:84-88 | with the flag clear, `turns` passes speak the first `min(turns, len)` items of the deque in order and leave the rest; with the flag set, nothing happens |
| `Speak.StopTwice` | speak.py:50-60 | calling `stop()` twice leaves no thread and ends in the state one call gives: the worker, if any, is joined once, the other fields are kept, and the second call changes nothing |
| `Speak.SpeaksInEnqueueOrder` | speak.py:84-88 | a started client holding `[a, b, c]` speaks `a`, `b`, `c` in that order |
| `NewSpeak.SayQueue.OutputText` | newspeak.py:39-42 | `output_text` enqueues the pair `(text, waitFinish)` at the tail |
| `NewSpeak.SayQueue.AllTextComplete` | newspeak.py:44-46 | `all_text_complete` enqueues the terminate marker at the tail |
| `NewSpeak.OnEnd` | newspeak.py:11-13 | the finished-utterance callback sets `ended` and leaves the local queue alone |
| `NewSpeak.StepAppendsAtTail` | newspeak.py:18-25 | an iteration appends at most one received item, and only at the tail; what remains is that list or that list without its head |
| `NewSpeak.StepWaitsUntilEnded` | newspeak.py:27 | while `ended` is false or the list is empty, the only engine call is `iterate` and nothing is popped |
| `NewSpeak.StepStopsAtTerminate` | newspeak.py:28-29 | with the terminate marker at the head, the loop exits without saying or popping anything |
| `NewSpeak.StepSpeaksHead` | newspeak.py:30-33 | otherwise exactly the head's text is said, exactly the head is removed, and `ended` becomes `not waitFinish` |
| `NewSpeak.StepKeepsOrder` | newspeak.py:24-33 | the texts said in one iteration, followed by the texts still queued, are the texts of the list after the append (FIFO) |
| `NewSpeak.RunSpeaksInOrder` | newspeak.py:17-34 | over any run, the texts said are a prefix of the pending texts followed by the texts received, in order |
| `NewSpeak.NoSayUntilOnEnd` | newspeak.py:27-30 | while a waited-for utterance has not ended and the callback does not fire, nothing is said and the loop does not exit, even at the terminate marker |
| `NewSpeak.SpeechDigesterLoop` | newspeak.py:5-36 | the loop makes exactly the engine calls of `Run` from an empty list with `ended` true, ends with `endLoop` when it meets the terminate marker, and says texts in arrival order |
| `ScreenCapture.Spanned` | screen_capture_ui.py:42-44 | the ordered box has `x1 <= x2` and `y1 <= y2`, keeps `{x1, x2}` and `{y1, y2}` as multisets, and leaves ordered corners unchanged |
| `ScreenCapture.Doubled` | screen_capture_ui.py:47 | every coordinate is doubled: the result is even, halves back to the box, and is twice as wide and high |
| `ScreenCapture.SpannedIgnoresDirection` | screen_capture_ui.py:42-44 | swapping the two corners gives the same box |
| `ScreenCapture.ScreenCaptureApp.constructor` | screen_capture_ui.py:21-23 | a new overlay has no start point and no rectangle |
| `ScreenCapture.ScreenCaptureApp.OnPress` | screen_capture_ui.py:32-35 | the event point becomes `(start_x, start_y)`, and the canvas's rectangle id is kept |
| `ScreenCapture.ScreenCaptureApp.OnRelease` | screen_capture_ui.py:40-48 | after a press, `set_bounding_box` receives twice the ordered box of the press and release points, even when it has zero width; with no press, nothing is set |
| `ScreenCapture.DragEitherWay` | screen_capture_ui.py:42-47 | pressing at A and releasing at B sets the same ordered box as pressing at B and releasing at A |

`ColourClose`, `IsScrollbarColour`, `Step` and `Run` carry no contract of
their own. They are the definitions that the lemmas and methods above are
stated about.

## Left out

- Screen grabbing, `pytesseract.image_to_string`, `print(path)` and
  `image.save` (`ocr.py:1-2`, `ocr.py:22-27`): these are foreign OCR and file
  I/O. Only the path string of `ocr.py:25` is modelled.
- Pillow's padding of crops that leave the frame: this is library behaviour.
  `Crop` requires the box to lie inside the frame. Pillow's own checks for
  reversed crop boxes are assumed as the two `CropError` cases; Pillow is not
  part of this model.
- Real threads, `Event`, `join` and the `time.sleep` busy wait (`speak.py:47-48`,
  `speak.py:56-57`, `speak.py:85-87`): each transition is one atomic step.
  No concurrent interleaving of workers and controller is modelled. So the
  model does not show two effects of the source. After a forced start, two
  workers pop from one deque. And `stop()` on a worker that waits on an empty
  deque blocks for ever, because the wait loop never re-checks the kill flag.
- Speak.SpeechClient.ThreadFunction: the kill flag is fixed for the length of
  the run. A `stop()` arriving mid-run is not modelled, because it is a
  concurrent call.
- `_speak` (`speak.py:71-82`): gTTS synthesis, the temporary file, playback
  and the profiling printout are modelled only as appending the text to
  `spoken`. The log messages printed by `start`, `stop` and `restart` are
  left out.
- The `print (text)` in `output_text` (`newspeak.py:41`) is console output
  and is left out. So is the failure of `output_text` and `all_text_complete`
  when called before `start_engine`, while the module-level `sayQ` is still
  `None` (`newspeak.py:38`): `SayQueue` is always constructed first.
- The `multiprocess` queue and process, and `start_engine` with the script under
  `__main__` (`newspeak.py:2`, `newspeak.py:48-63`): these are inter-process
  plumbing. The queue's results and the callback's timing are inputs of the
  model.
- The pyttsx3 engine set-up (`init`, `setProperty('rate', 500)`, `startLoop`,
  `connect`, `newspeak.py:6-8`, `newspeak.py:15`): this is foreign configuration.
  The engine calls the loop makes are logged, but what the engine does with
  them is not modelled.
- NewSpeak.SpeechDigesterLoop: the source loops for ever until it meets the
  terminate marker. The model stops when its script of queue results runs out,
  and then no `endLoop` is logged.
- The tkinter window set-up, `on_drag`, `create_rectangle`, `withdraw` and
  `quit` (`screen_capture_ui.py:9-30`, `screen_capture_ui.py:35-38`,
  `screen_capture_ui.py:41`, `screen_capture_ui.py:48`): these are UI. The
  rectangle id that `create_rectangle` returns is a parameter of `OnPress`.
- `gui.py`, `experiment_gui.py`, `main.py` and `newnewspeak.py`: UI, wiring
  and network speech synthesis. The `OCR` class that `main.py`,
  `gui.py` and `screen_capture_ui.py` import is not part of this model.
