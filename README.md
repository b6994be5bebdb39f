# AR furniture placement: a Dafny model of its state and decision logic

This project models the parts of the AR furniture web app that hold state
or make decisions. The rest of the app is React markup, Firebase calls and
a WebXR/three.js render tree.

- `placement.dfy` (module `Placement`): the `ARModel` component. It has a
  `placed` flag, a position and a uniform scale. While the model is
  unplaced, the hit-test callback moves it to the translation of the hit
  matrix. The select gesture toggles `placed`. The class `ARModel` updates
  these fields in place. The pure functions `HitStep`, `SelectStep` and
  `Replay` specify it, and lemmas about whole event sequences cover the
  rest.
- `capability.dfy` (module `Capability`): the WebXR probe, the tri-state
  `boolean | null` that it writes once per mount, the choice of
  `CustomARButton`'s button and caption, and the not-supported overlay.
- `ar_page.dfy` (module `ArPage`): the AR experience page. It covers the
  sidebar's loading / error / empty / list precedence, the highlight rule
  for the selected model, and the main pane's decision table (overlay, AR
  view, "select a model" prompt). It also holds the page's two state cells,
  which are written by the probe and by the click handler.
- `upload.dfy` (module `Upload`): the upload page. It covers the extension
  filter and append of `handleFileChange`, `removeFile`, the configuration
  check and per-file set-up loop of `handleUpload`, the progress map, and
  the "all uploads complete" reset.
- `wrappers.dfy` (module `Wrappers`): `Option` and `Result`.

Where the design description and the code differ, the model follows the
code:

- The design describes separate confirm/release operations, with an
  idempotent confirm. `handleSelect` is a single toggle, so two selects
  undo each other (`ReplayPlacedParity`, `SelectIsInvolution`).
- The design gives mesh normalisation a fallback for a degenerate mesh.
  The preview component divides by the largest extent with no guard. That
  component is left out (see below).
- The design destroys a placement state when its model is deselected. In
  the code, clicking another model while the AR view is shown re-renders
  the same unkeyed `ARModel` with a new `url`, and React keeps its state,
  so the new model appears at the old position, placed if the old one was
  (`ARModel.ChangeUrl`).
- The design describes a session orchestrator that refuses to start a
  second session. No such logic exists in the code: session start and stop
  belong to the XR library.
- The design says the capability is probed once per process. In the code,
  three components probe independently: the button, the AR view and the
  page. Each writes its own state at most once per mount (in a production
  build). Their guards differ: the button tests `typeof navigator` and would
  write `false` where `navigator` is undefined, while the view and the page
  test `typeof window` and would write nothing there. That case never
  arises where effects run: effects do not run during server rendering,
  and the AR view is loaded with `ssr: false`. When `"xr" in navigator`
  holds but `navigator.xr` is nullish, the optional chain short-circuits
  and no component writes anything, so the state stays unknown.

JavaScript semantics are written out where they decide a branch. An empty
`error` string is falsy, so it does not win the sidebar's error branch. An
empty API key counts as missing. `(bytesTransferred / totalBytes) * 100` is
not finite when `totalBytes` is 0, so it never equals 100.

## Model

| member | source | states |
|---|---|---|
| Capability.ButtonProbeWrite | src/components/ARExperience.tsx:31-45 | the button's effect writes nothing only when `navigator.xr` is nullish; otherwise it writes the resolved answer, or `false` when `navigator` is undefined (never where effects run), no `xr` or a rejection; it writes `true` only when the probe resolves `true` |
| Capability.ViewProbeWrite | src/components/ARExperience.tsx:155-172 | the view's effect writes nothing without `window` or when `navigator.xr` is nullish; otherwise it writes the answer, or `false` on a missing `xr` or a rejection |
| Capability.ButtonSupport | src/components/ARExperience.tsx:29-45 | the button's settled state is `false` exactly for an undefined `navigator` (never where effects run), no `xr`, rejection or answer `false`; `true` only for answer `true`; unknown only for a nullish `navigator.xr` |
| Capability.ViewSupport | src/app/ar-experience/page.tsx:27-46 | the page's settled state is `false` exactly for missing `xr`, rejection or answer `false`; `true` only for answer `true`; unknown without `window` or for a nullish `navigator.xr` |
| Capability.ButtonFor | src/components/ARExperience.tsx:47-74 | "Checking" iff unknown, "Not Supported" iff `false`, "Start AR" iff `true` |
| Capability.ClickableOnlyWhenSupported | src/components/ARExperience.tsx:63-74 | the button has a click handler iff the probe resolved with `true` |
| Capability.ShowsOverlay | src/components/ARExperience.tsx:192 | the overlay is shown iff the state is exactly `false` |
| Capability.LabelIdentifiesState | src/components/ARExperience.tsx:47-74 | two states get the same caption iff they are equal |
| Capability.ButtonCaption | src/components/ARExperience.tsx:47-74 | caption "Checking AR..." iff unknown, "AR Not Supported" iff `false`, "Start AR" iff `true` |
| Capability.ButtonAgreesWithOverlay | src/components/ARExperience.tsx:28-192 | for every outcome where `navigator` is defined, and assuming the button's and the view's separate probes see the same outcome, the button reads "AR Not Supported" iff the overlay is shown |
| Capability.RejectionIsUnsupported | src/components/ARExperience.tsx:39-41 | a rejected probe resolves to `false` in both components and is never raised as an error |
| Placement.HitStep | src/components/ARExperience.tsx:92-106 | a hit sets the position to exactly the hit's translation when the model is unplaced and the group ref is set; otherwise the position is kept; `placed` and scale never change |
| Placement.SelectStep | src/components/ARExperience.tsx:109-116 | select flips `placed` and changes neither position nor scale |
| Placement.RenderedScaleIsMountScale | src/components/ARExperience.tsx:83-123 | after any hits and selects, the group is rendered with the mount-time scale on all three axes |
| Placement.HitIgnoresRotationAndScale | src/components/ARExperience.tsx:95-103 | hit matrices that differ only outside the translation column have the same effect, so decomposed rotation and scale are discarded |
| Placement.ReplayKeepsScale | src/components/ARExperience.tsx:83 | no sequence of hits and selects changes the scale |
| Placement.ReplayPlacedParity | src/components/ARExperience.tsx:109-116 | after any events, `placed` is the starting mode flipped once per select: a toggle, not a latch |
| Placement.SelectIsInvolution | src/components/ARExperience.tsx:109-116 | two selects restore the state; one select is not idempotent |
| Placement.PlacedIgnoresHits | src/components/ARExperience.tsx:93 | while placed, any run of hits leaves the whole state unchanged |
| Placement.TrackingFollowsLastHit | src/components/ARExperience.tsx:92-106 | while unplaced, after a run of hits the position is the last attached hit's translation, or is unchanged if no hit reached the group |
| Placement.ARModel.constructor | src/components/ARExperience.tsx:78-83 | a new model is unplaced, at the given position (default origin) with the given scale (default 1) |
| Placement.ARModel.OnHit | src/components/ARExperience.tsx:92-106 | the fields move as `HitStep` says: position replaced only when unplaced and attached; `placed`, scale and url kept |
| Placement.ARModel.Select | src/components/ARExperience.tsx:109-116 | `placed` is negated; position, scale and url are kept |
| Placement.ARModel.ChangeUrl | src/components/ARExperience.tsx:78-83 | a new `url` prop on the mounted model keeps `placed`, position and scale |
| Placement.MountDefault | src/components/ARExperience.tsx:186 | the view mounts the model with only a url: unplaced, at the origin, scale 1 |
| ArPage.Items | src/app/ar-experience/page.tsx:80-92 | one item per model, in order; an item is highlighted iff its id equals the selected id |
| ArPage.SidebarFor | src/app/ar-experience/page.tsx:64-94 | loading wins; otherwise a truthy error; otherwise "no models" for an empty list; otherwise the list |
| ArPage.PaneFor | src/app/ar-experience/page.tsx:118-178 | overlay iff `false`; AR view iff `true` and a model is selected, with that model's url; prompt iff `true` and nothing selected, with upload link iff the catalog is empty |
| ArPage.HighlightCountIsIdCount | src/app/ar-experience/page.tsx:83-87 | the number of highlighted items is the number of models sharing the selected id, or 0 with no selection |
| ArPage.ClickHighlightsOnlyThatItem | src/app/ar-experience/page.tsx:83-88 | with distinct ids, clicking item k highlights exactly one item, item k |
| ArPage.NothingSelectedNothingHighlighted | src/app/ar-experience/page.tsx:84 | with no selection no item is highlighted |
| ArPage.PaneShowsAtMostOneThing | src/app/ar-experience/page.tsx:118-178 | the overlay excludes any content; while unknown nothing is shown |
| ArPage.ArExperiencePage.constructor | src/app/ar-experience/page.tsx:26-27 | the page starts with capability unknown and nothing selected |
| ArPage.ArExperiencePage.ProbeSettled | src/app/ar-experience/page.tsx:29-46 | the settled probe applies its single write; from unknown the state becomes `ViewSupport`; the selection is kept |
| ArPage.ArExperiencePage.Click | src/app/ar-experience/page.tsx:88-103 | clicking selects that model, the "Selected Model" panel shows its name, and the capability is kept |
| ArPage.SelectAfterSupport | src/app/ar-experience/page.tsx:158-159 | probe says supported, the user clicks a model, and the AR view gets that model's url with no overlay |
| ArPage.ClickShowsHighlight | src/app/ar-experience/page.tsx:64-94 | after the catalog loads without error, clicking item k of a list with distinct ids shows the list with item k as its only highlight |
| Upload.Accepted | src/app/upload/page.tsx:34-36 | every kept file ends in ".glb" or ".gltf" and was chosen; every chosen file with such a name is kept |
| Upload.AcceptedOfConcat | src/app/upload/page.tsx:34-36 | filtering distributes over concatenation, so the accepted files keep their original order |
| Upload.AlertIffSomeRejected | src/app/upload/page.tsx:38-40 | the counts differ iff some chosen file is rejected; if none is, all are kept unchanged |
| Upload.WithoutIndexIsSplice | src/app/upload/page.tsx:142-144 | the index filter deletes exactly position i and keeps the rest in order; an out-of-range i changes nothing |
| Upload.PercentIsHundredIffDone | src/app/upload/page.tsx:75-76 | the progress value is 100 iff the file is non-empty and every byte has been transferred |
| Upload.ResetNeedsDistinctNames | src/app/upload/page.tsx:106-111 | when the map keys are file names, the reset condition can hold only if the file names are distinct |
| Upload.FinishedDistinctFilesReset | src/app/upload/page.tsx:106-111 | files with distinct names, each at 100, satisfy the reset condition |
| Upload.LastSetupError | src/app/upload/page.tsx:129-133 | the error is absent iff no file's set-up threw |
| Upload.LastSetupErrorIsLastFailure | src/app/upload/page.tsx:129-133 | a present error is the "Error processing" message of a file whose set-up threw, and no later file's set-up threw |
| Upload.StartedSkipsFaults | src/app/upload/page.tsx:67-133 | every started upload belongs to a listed file whose set-up did not throw |
| Upload.StartedComplete | src/app/upload/page.tsx:67-70 | every file whose set-up did not throw is started, whatever the other files did |
| Upload.AllStartedWithoutFaults | src/app/upload/page.tsx:67-70 | when no set-up throws, every file's upload starts, in list order |
| Upload.UploadPage.constructor | src/app/upload/page.tsx:19-27 | the page starts with no files, not uploading, empty progress, no uploads and no error |
| Upload.UploadPage.ChooseFiles | src/app/upload/page.tsx:32-45 | a null list changes nothing; otherwise accepted files are appended after the unchanged existing ones, the error is cleared, and the alert fires iff one was rejected |
| Upload.UploadPage.RemoveFile | src/app/upload/page.tsx:142-144 | the list loses exactly index i (none if out of range); everything else is kept |
| Upload.UploadPage.Upload | src/app/upload/page.tsx:47-140 | an empty list does nothing; a missing or placeholder key sets the configuration error and stops uploading; otherwise each file's task is started unless its set-up throws, and `uploading` stays true iff none threw |
| Upload.UploadPage.OnProgress | src/app/upload/page.tsx:74-81 | only the entry keyed by that file's name changes; other keys and all other state are kept |
| Upload.UploadPage.OnUploadError | src/app/upload/page.tsx:82-86 | sets "Error uploading name: message" and stops uploading |
| Upload.UploadPage.OnUploadComplete | src/app/upload/page.tsx:87-127 | a failure sets "Error processing name: message" and stops uploading; a success appends the uploaded model, and resets files, progress and `uploading` (and requests a refresh) exactly when the map has as many keys as there are files and every value is 100 |

## Left out

- Preview normalisation (`ModelPreview`): this is floating-point bounding-box geometry computed by three.js, which is not part of this model. It also mutates the shared scene in place and divides by the largest extent with no guard against zero.
- Firebase storage upload, `getDownloadURL`, `addDoc` and the catalog's `fetchModels`: these are network I/O. Their outcomes enter as parameters (`fault`, `stored`, the catalog's `models` / `loading` / `error`), and the refresh is a returned flag.
- Upload.UploadPage.Upload: errors thrown by `getStorage` / `getFirestore` also reach the outer catch, but only the configuration check is modelled on that path.
- Upload.UploadPage.OnUploadComplete: tests the reset condition on the current progress map and file list. In the app, the callback reads the values captured when `handleUpload` was created, which is a React stale-closure effect that is not modelled.
- Placement.ARModel.Select: every call sees the current `placed`. In the app, two selects handled in the same render would read the same captured value.
- Placement.Translation: the hit matrix's rotation and scale are not computed, because the callback discards them. Coordinates, scale and progress values are reals, not IEEE doubles.
- Effects running once per mount: this holds in a production build. In development, React's strict mode (`reactStrictMode: true` in next.config.js) runs each mount effect twice, so each component probes twice and may write twice. The model takes one probe per mount.
- AR session start and stop, hit-test ray casting and the `Interactive` select plumbing: these live inside the XR library. The model receives their results as `OnHit` and `Select` calls.
- Rendering and configuration: canvas, lights, camera, controls, the `window.THREE` shim, the alert texts, button styling and disabled states, the progress-bar rendering, the "Uploaded Models" list markup, the home page, the layout and `next.config.js`.
- A catalog model's `createdAt`: no decision depends on it.
