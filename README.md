# Detection page upload-and-analyze workflow, in Dafny

This project models the client-side workflow of the MRI detection page
(`DetectionApp` in `frontend/app/detect/page.tsx`). A user drops or picks one image,
presses Analyze, and the page posts the image to the inference endpoint. It then turns
the settlement of that request into a `{hasTumor, confidence, message}` record for the
result panel. The four pieces of React state (`selectedFile`, `isAnalyzing`, `result`,
`dragActive`) are the fields of the class `DetectPage.DetectionApp`, and each event
handler is a method on it whose contract states the whole new state. The response
mapping inside `analyzeImage` is the pure function `Inference.Normalize`.

Modules:
- `Wrappers` (`wrappers.dfy`): `Option`, standing for the page's `null`.
- `ImageFile` (`image_file.dfy`): the `File` record (name, size, declared MIME type), a
  character-by-character `StartsWith`, and the `image/` filter of the drop handler.
- `Inference` (`inference.dfy`): the abstract settlement `Outcome` (`Ok`, `NotOk`,
  `Threw`), the result record, the four fixed message texts, the rounding of the
  confidence, and `Normalize`.
- `DetectPage` (`detect_page.dfy`): the `DetectionApp` class, plus four client methods.
  The client methods replay the page's typical scenarios and assert what the contracts
  guarantee: a positive scan, a score of 0.995 rounding to 100, an ignored PDF, then a
  thrown request, an error body, a double click and a reset.

The workflow invariant `DetectionApp.Valid()` says the page is busy only while it
holds a file. Every handler preserves it: only `resetAnalysis` clears the file, and it
clears the busy flag too. `StartAnalyze` states its consequence for callers: while a
request is in flight the file is still held and the Analyze button is disabled.

Confidence is modelled on integers. The backend rounds `confidence_score` to four
decimals (`backend/main.py:33`), so the score is carried as basis points `scoreBp`
(score × 10000). `Math.round(score * 100)` becomes `(scoreBp + 50) / 100`. Dafny's
division by a positive divisor rounds down, so this equals `floor(x + 0.5)`, which is
`Math.round`, for negative scores too. `RoundPercentIsMathRound` proves it equal to
`Math.round` on the exact real `scoreBp / 10000 * 100`.

`analyzeImage` is split at its one suspension point. `StartAnalyze` covers lines 55-60:
the guard, the busy flag and the request. `Settle` covers lines 62-94: the normalized
result and clearing the busy flag. `AnalyzeImage` runs both in sequence. `Settle`
requires only the class invariant `Valid()`, so it also covers a settlement that
arrives after a reset or a new drop.

Three behaviours of the code worth noting:
- A non-2xx response with no `error` field, or an empty one, gives "Analysis failed."
  rather than the network-error text.
- The file picker adopts its first file without any MIME check. Only the input's
  `accept="image/*"` hint (line 217) filters it.
- `analyzeImage` itself has no in-flight guard. Re-entry is prevented only because the
  Analyze button is disabled while busy. `ClickAnalyze` models that button.

## Model

| member | source | states |
|---|---|---|
| `ImageFile.StartsWith` | frontend/app/detect/page.tsx:39 | `startsWith` holds exactly when the prefix is no longer than the string and equals the string's leading part |
| `Inference.MathRound` | frontend/app/detect/page.tsx:73 | `Math.round` gives the integer r with r ≤ x + 0.5 < r + 1 (nearest integer, halves up) |
| `Inference.RoundPercent` | frontend/app/detect/page.tsx:73 | the percentage is the nearest integer to scoreBp/100, halves up; a score in [0, 1] gives a percentage in [0, 100] |
| `Inference.RoundPercentIsMathRound` | frontend/app/detect/page.tsx:73 | the integer basis-point rounding equals `Math.round(score * 100)` on the exact score, for every score |
| `Inference.Normalize` | frontend/app/detect/page.tsx:62-92 | a tumor is reported iff the response was ok with class 1; on success the confidence is `Math.round(score * 100)` on the exact score, within [0, 100] for a score in [0, 1], and the message is the tumor text iff a tumor is reported, else the no-tumor text; every failure gives no tumor and confidence 0; a non-ok response passes on a non-empty `error` text, else "Analysis failed."; a thrown fetch or JSON parse gives the network-error text |
| `DetectPage.DetectionApp.constructor` | frontend/app/detect/page.tsx:12-19 | the page starts with no file, not busy, no result, no drag highlight, and satisfies the workflow invariant |
| `DetectPage.DetectionApp.HandleDrag` | frontend/app/detect/page.tsx:21-29 | dragenter/dragover turn the highlight on, dragleave turns it off, any other event type leaves it alone; file, result and busy flag never change |
| `DetectPage.DetectionApp.HandleDrop` | frontend/app/detect/page.tsx:31-44 | every drop turns the highlight off; if the first file's type starts with `image/` it becomes the selected file and the result is cleared, otherwise (including an empty drop) file and result are unchanged; the busy flag never changes |
| `DetectPage.DetectionApp.HandleFileSelect` | frontend/app/detect/page.tsx:46-52 | a non-empty selection adopts its first file whatever its type and clears the result; an empty one changes nothing; busy flag and highlight never change |
| `DetectPage.DetectionApp.StartAnalyze` | frontend/app/detect/page.tsx:54-60 | without a file nothing changes and no request is built; with one the page becomes busy and the request uploads exactly that file in the `file` field, and while busy the file is held and the button disabled; file, result and highlight are unchanged |
| `DetectPage.DetectionApp.Settle` | frontend/app/detect/page.tsx:62-94 | the result becomes `Normalize` of the outcome alone, so nothing from the earlier state leaks in; the busy flag is cleared; file and highlight are unchanged |
| `DetectPage.DetectionApp.AnalyzeImage` | frontend/app/detect/page.tsx:54-95 | with no file the whole state is unchanged; otherwise the page ends not busy with the normalized result; the selected file is never modified |
| `DetectPage.DetectionApp.ClickAnalyze` | frontend/app/detect/page.tsx:177-179 | a click dispatches a request iff a file is held and no analysis is in flight; otherwise nothing changes |
| `DetectPage.DetectionApp.ResetAnalysis` | frontend/app/detect/page.tsx:98-102 | file and result are cleared and the busy flag is off; the drag highlight is untouched |

Determinism: `Normalize` is a Dafny function of the outcome alone. The same settlement
therefore always yields the same record, and `Settle`'s contract shows the old state
plays no part in it.

## Left out

- The request itself (`FormData`, `fetch`, `response.json()`, the `NEXT_PUBLIC_API_URL`
  base address, lines 59-68) is foreign I/O. The abstract `Outcome` parameter of
  `Settle` and `AnalyzeImage` replaces it.
- Async interleaving: the model runs `StartAnalyze` and `Settle` as separate sequential
  steps. It does not model the event loop that orders them against other events.
- `Ok` assumes the body has an integer `predicted_class` and a numeric
  `confidence_score`. An ok body missing `predicted_class` would compare
  `undefined === 1` as false and so report no tumor with the no-tumor text (lines 72,
  75); one missing `confidence_score` would give a `NaN` confidence (line 73). Neither
  body is modelled. A body that is JSON `null`, ok or not, throws when its fields are
  read and lands in the catch (lines 86-91); the model counts it as `Threw`.
- A non-string `error` field that is truthy is treated like a string; JavaScript's
  other falsy values for that field are treated like a missing one.
- Floating point: `Math.round` is taken on exact reals. Its IEEE-754 behaviour at
  half-way points, and the backend's float `round(..., 4)`, are not modelled.
- The file's binary content, the preview through `URL.createObjectURL` and the
  megabyte display (lines 161, 173) are presentation, as is all other markup and
  styling (lines 104-407). `preventDefault`/`stopPropagation` are browser plumbing.
- `frontend/app/page.tsx` holds a timer-driven, random mock of the same workflow, and
  its handlers repeat these. `backend/main.py` wraps model code that is not part of this
  model; it is used only for the response shape and the four-decimal score.
