# Plagiarism Checker Pro: selection state machine and similarity tiers

The application compares two text files and shows a similarity percentage
on a gauge and in a coloured text report. This project models the part of
`app.py` that is logic rather than layout:

- **File selection.** Two slots hold the chosen paths; the "Analyze" button
  is enabled or disabled alongside them. Choosing files refills the slots
  from the first two paths. Pressing a slot's remove button clears that
  slot and redisplays the rest, so removing file 1 moves file 2 up. A path
  counts as present under Python's truth rule: not `None` and not `""`.
  `FileSelection` states this on values (`Display`, `Compact`, `Remove`,
  `Step` for one user event and `Run` for any sequence of them). `Checker.App` is the same
  state as a class whose handler methods are proved against those functions.
- **Analysis guard.** `Checker.App.AnalyzePlagiarism` only warns unless both
  slots hold a path. Otherwise it asks a scoring function, which is a
  parameter, and redraws the gauge and report. On an error from the scorer
  it leaves the gauge alone and the report at "Analyzing...".
- **Browse area.** `Checker.FileDropArea` keeps at most `maxFiles = 2` of
  the chosen paths.
- **Similarity tiers.** `Tiers` holds the rule: a score of 70 or more is
  high, from 40 up to 70 (not included) is moderate, and anything lower is
  low. It also holds the gauge's colour and caption and the report's tags
  and message. A lemma shows that the report's tag colours equal the
  gauge's colour for every score.

Scores are `real`; the rule only compares them.

Modules: `Wrappers` (wrappers.dfy), `Tiers` (tiers.dfy), `FileSelection`
(selection.dfy), `Checker` (app.dfy).

Paths the file dialog returns are never empty. The model still keeps the
empty string apart from `None`, because the program does. `update_file_display`
fills slots by list length, and the guard tests truthiness. So with a path
`""` the button could be enabled while the guard refuses. The lemmas about
reachable states take the dialog's guarantee (`FromDialog`) as a premise.

## Model

| member | source | states |
|---|---|---|
| `Tiers.Band` | app.py:114-122 | High exactly when score >= 70; Moderate exactly when 40 <= score < 70; Low exactly when score < 40 |
| `Tiers.BandMonotone` | app.py:114-122 | a higher score never falls in a lower tier |
| `Tiers.GaugeStyleOf` | app.py:113-122 | the gauge caption is "High/Moderate/Low Similarity" exactly in the matching band; the colour is red, orange or green by band |
| `Tiers.ReportStyleOf` | app.py:244-253 | the report tag is "high"/"medium"/"low" exactly in the matching band; the description tag is that tag plus "_desc"; the verdict sentence is the high, moderate or low message of the matching band |
| `Tiers.TagForeground` | app.py:341-348 | exactly the seven configured tags have a foreground colour |
| `Tiers.GaugeAgreesWithReport` | app.py:245-253 | for every score, the report's score tag and description tag have the gauge's colour |
| `FileSelection.Display` | app.py:158-190 | slot 1 is paths[0] when there is a path and None otherwise; slot 2 is paths[1] when there are two or more; later paths are ignored; the button is enabled exactly when there are two or more paths; slot 2 set implies slot 1 set; with non-empty paths the button is enabled exactly when the guard passes |
| `FileSelection.Compact` | app.py:200-208 | the rebuilt list is slot 1's path (if true) followed by slot 2's path (if true); no empty path; at most two |
| `FileSelection.Remove` | app.py:192-210 | the result is well formed and Analyze is disabled; the count of chosen files drops by exactly one when the targeted slot held a path and is otherwise unchanged; removing 1 moves slot 2 to slot 1; any other number clears slot 2 and keeps slot 1; removing an empty slot of a well-formed selection changes nothing |
| `FileSelection.RemoveNeverAdds` | app.py:192-210 | removing never increases the number of chosen files |
| `FileSelection.RemoveFirstShiftsSecond` | app.py:195-210 | removing file 1 of two leaves the old file 2 in slot 1, slot 2 empty and Analyze disabled |
| `FileSelection.Selection.CanAnalyze` | app.py:215-217 | the analysis guard: both slots hold a true path; in a well-formed selection it holds exactly when the Analyze button is enabled |
| `FileSelection.Step` | app.py:146-149 | one user event: a cancelled dialog keeps the selection; a non-empty choice puts its first path in slot 1 and enables Analyze exactly for two or more paths; a removal disables Analyze and never adds a file; every event keeps a consistent selection consistent |
| `FileSelection.Take` | app.py:99 | `paths[:n]`: the first min(n, len) paths, a prefix of the input |
| `FileSelection.DisplayIgnoresExtraPaths` | app.py:162-175 | displaying the first n >= 2 paths gives the same selection as displaying all of them |
| `FileSelection.RunKeepsConsistent` | app.py:159-210 | from a consistent selection, any sequence of choices and removals keeps slot 2 set only with slot 1 set, and the button enabled exactly when slot 2 is set |
| `FileSelection.RunKeepsWellFormed` | app.py:146-210 | with paths from a dialog, any sequence of events keeps the selection consistent and free of empty paths |
| `FileSelection.ReachableButtonMatchesGuard` | app.py:186-190 | from start-up, with dialog paths, the button is enabled exactly when the analysis guard lets the analysis run, and slot 2 is never set without slot 1 |
| `Checker.App.constructor` | app.py:269-369 | start-up state: both slots None, Analyze disabled, the welcome text, and the gauge drawn at 0 (Low) |
| `Checker.App.UpdateFileDisplay` | app.py:151-190 | the new selection is `Display(paths)` |
| `Checker.App.UploadFiles` | app.py:146-149 | a cancelled dialog changes nothing; otherwise the selection is `Display(chosen)`, so every chosen path is passed on and only the first two are kept |
| `Checker.App.RemoveFile` | app.py:192-210 | the new selection is `Remove(old selection, n)`: well formed, Analyze disabled, never more files than before |
| `Checker.App.AnalyzePlagiarism` | app.py:212-258 | without two true paths: a warning, and the gauge and report unchanged. On a scorer error: an error box, the gauge unchanged, the report at "Analyzing...". On a score: the gauge and the report show that score with the tier style of both |
| `Checker.FileDropArea.constructor` | app.py:76-80 | no files yet, and at most two files are kept |
| `Checker.FileDropArea.BrowseFiles` | app.py:96-101 | a cancelled dialog changes nothing and calls nothing; otherwise the area keeps the first min(2, n) paths and hands exactly those to its command, if it has one; the forwarded list gives the same selection as the whole choice would |

## Left out

- Scoring (`vectorize`, `similarity`, `check_plagiarism`, app.py:11-26): TF-IDF and cosine similarity are floating-point maths in scikit-learn, and the files are read with UTF-8 decoding. `AnalyzePlagiarism` takes the scorer as a parameter that returns a score or the text of an exception.
- Rounding a score to two decimals and formatting it as `"{score}%"` are float formatting, so they are not modelled.
- The report shows `os.path.basename` of each path; the model records the full paths.
- Widgets are not modelled: frames, labels, canvas drawing, the gauge arc angle, hover handlers, message box texts, `root.update()`, `mainloop` and the window setup (app.py:28-73, 124-143, 155-184, 262-372).
- `Checker.App.AnalyzePlagiarism`: the scorer runs as a pure function. The window refresh before it runs (`root.update()`) is not modelled.
- File dialogs are an input: the chosen paths are an arbitrary `seq<string>`. Whether the dialog returns a tuple or an empty string on cancel makes no difference; both are false.
- The program never creates a `FileDropArea`; it is modelled as the class it is.
