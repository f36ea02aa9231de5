# Maternidade dashboard — a Dafny model

The farrowing-room ("maternidade") dashboard watches a fleet of pen cameras.
It shows:

- per-status tallies of the cameras (active, alerting, inactive);
- a connection panel with signal strengths, an average and signal bands;
- a per-camera ledger of events (births, deaths, crushing alerts);
- a list of notifications;
- a live-view dialog with a mute button.

Four interchangeable layout shells present this. One uses tabs, one a
sidebar with a mobile drawer, one navigation cards, and one is a
low-fidelity wireframe. A chooser screen switches between them.

This project models the logic inside those components. It covers the
counting and rounding expressions, the mapping tables from enumerated values
to labels, colours and variants, and how React renders `value && <element/>`.
It also models the state cells the click handlers update: the camera
selection, the dialog, mute, tabs, the drawer and the layout choice. Each is
proved against the behaviour the code has.

Modules, one per component, plus shared pieces:

- `Common`: `Option`, `filter`, a reference counting function, badge
  variants, and the rendering of `n && …` / `s && …`.
- `Fleet`: the camera record every layout declares, the three tallies and
  the header summary.
- `NetworkStatus`, `CameraNotifications`, `NotificationsList`,
  `CameraPreview`: pure functions, with lemmas relating them.
- `LiveCameraDialog`: the status badge, and a class owning `isMuted`.
- `CameraSession`: the live-view session of layouts 1–3. It is a pure
  transition function `Apply` plus the class `Selection`, which holds
  `selectedCamera`, `dialogOpen` and the mounted dialog. Every method of the
  class is proved to move its state exactly as `Apply` does.
- `Navigation`, `AppLayout2`, `AppLayout3`, `AppLayout4`: tabs and panels,
  menu badges, the sidebar/drawer state, the highlight of the wireframe grid.
- `LayoutSelector`: the chooser's `selectedLayout` state cell.

Notes on the code's behaviour:

- A connection's status is declared with the entry; it is not computed from
  the signal strength. Entry 4 is `weak` at strength 45, which is the red band
  (`NetworkStatus.DeclaredStatusIsNotBand`).
- The average of an empty connection list is NaN in the code, so
  `AvgSignal` requires a non-empty list.
- Selecting another camera does not reset mute. The dialog stays mounted with
  no `key`, so its `isMuted` survives closing, reopening and switching cameras
  (`CameraSession.MuteSurvivesCameraSwitch`).
- Closing the dialog does not clear the selection. It only sets `dialogOpen`
  to false (`CameraSession.CloseKeepsSelection`).
- The seeded fleet is 4 active, 2 alerting and 1 inactive
  (`Fleet.SeedStatusCounts`).
- The code records no events, validates no ids and counts no notifications
  per severity, so the model has none of these.

Handlers that only exist on screen in some states have that state as a
precondition on the class methods. Examples are the drawer's entries, the
chooser's cards, a layout's back button, the camera preview cards of
layouts 2 and 3 (rendered only on the cameras tab), the dialog's
`onOpenChange` (only while it is mounted) and its mute button (only while it
is open). The pure transition functions
(`AppLayout2.Step`, `LayoutSelector.Step`, `CameraSession.Apply`) accept every
event and treat the unavailable ones as no-ops.

## Model

| member | source | states |
|---|---|---|
| Common.Filter | src/AppLayout1.tsx:87-89 | `filter` keeps only elements satisfying the predicate, and each of those with its full multiplicity (the order is stated by FilterConcat and FilterSingleton) |
| Common.FilterConcat | src/AppLayout1.tsx:87-89 | filtering a concatenation is the concatenation of the filtered parts, in the same order |
| Common.FilterSingleton | src/AppLayout1.tsx:87-89 | a one-element list keeps its element iff it satisfies the predicate |
| Common.PartitionCount3 | src/AppLayout1.tsx:87-89 | three filters that split every element into exactly one class have lengths adding up to the list length |
| Common.FilterLengthIsCount | src/components/NetworkStatus.tsx:25-27 | `filter(p).length` equals the direct count of elements satisfying p |
| Common.FilterCount | src/components/NetworkStatus.tsx:25-27 | `xs.filter(p).length` is at most the list length and equals the direct count (the tallies of src/AppLayout1.tsx:87-89 are the same expression) |
| Common.CountWhereConcat | src/components/NetworkStatus.tsx:25-27 | counting distributes over concatenation |
| Common.CountWherePrefix | src/components/NetworkStatus.tsx:25-27 | one more element adds one to the count exactly when it satisfies the predicate |
| Common.CountWhereZeroIffNone | src/AppLayout4.tsx:160-161 | the count is zero exactly when no element satisfies the predicate |
| Common.GuardNumber | src/components/CameraNotifications.tsx:234 | `n && <el/>` shows the element iff n is present and non-zero, and the text "0" iff n is 0 |
| Common.GuardText | src/components/NotificationsList.tsx:106-110 | `s && <el/>` shows the element iff s is present and non-empty, with s unchanged |
| Fleet.StatusNameInjective | src/AppLayout1.tsx:17 | the three status literals are distinct, so comparing names identifies the status |
| Fleet.Counts | src/AppLayout1.tsx:87-89 | active + alert + inactive == cameras.length, each being its filter count (the same three filters are at src/AppLayout2.tsx:90-92, src/AppLayout3.tsx:90-92 and src/AppLayout4.tsx:30-32) |
| Fleet.CountPositiveIffSome | src/AppLayout1.tsx:124-135 | a tally is positive iff some camera has that status |
| Fleet.Summary | src/AppLayout1.tsx:120-135 | the active chip always shows its tally; the alert and inactive chips appear iff their tally > 0, showing it (likewise the cards at src/AppLayout3.tsx:150-176 and the chips at src/AppLayout4.tsx:73-84) |
| Fleet.SummaryShowsIffSome | src/AppLayout2.tsx:136-147 | the alert (inactive) summary is shown iff some camera is alerting (inactive) |
| Fleet.CameraTabBadge | src/AppLayout1.tsx:163 | the cameras tab badge equals the sum of the three tallies |
| Fleet.SeedIdsUnique | src/AppLayout1.tsx:22-72 | the declared fleet's ids are unique |
| Fleet.SeedTally | src/AppLayout1.tsx:22-72 | the declared fleet has 4 active, 2 alerting, 1 inactive cameras by direct count |
| Fleet.SeedStatusCounts | src/AppLayout1.tsx:87-89 | the three filters on the declared fleet give 4, 2 and 1 |
| NetworkStatus.Counts | src/components/NetworkStatus.tsx:25-27 | online + weak + offline == number of entries; each counts entries by declared status only |
| NetworkStatus.MinMaxBound | src/components/NetworkStatus.tsx:28-30 | every strength lies between the minimum and maximum |
| NetworkStatus.MinMaxAttained | src/components/NetworkStatus.tsx:28-30 | the minimum and maximum are strengths of some entry |
| NetworkStatus.SumStrength | src/components/NetworkStatus.tsx:29 | the reduced sum of non-negative strengths is non-negative |
| NetworkStatus.SumWithin | src/components/NetworkStatus.tsx:29 | with strengths in [lo, hi], n·lo ≤ sum ≤ n·hi |
| NetworkStatus.RoundWithin | src/components/NetworkStatus.tsx:28-30 | a half-up rounded quotient of a sum in [n·lo, n·hi] lies in [lo, hi] |
| NetworkStatus.AvgSignal | src/components/NetworkStatus.tsx:28-30 | the result r is Math.round(sum/n): r − ½ ≤ sum/n < r + ½, on a non-empty list |
| NetworkStatus.AvgSignalWithin | src/components/NetworkStatus.tsx:28-30 | if all strengths lie in [lo, hi], so does the rounded average |
| NetworkStatus.AvgSignalBetweenMinMax | src/components/NetworkStatus.tsx:28-30 | min ≤ avgSignal ≤ max |
| NetworkStatus.AvgSignalIsPercentage | src/components/NetworkStatus.tsx:28-30 | strengths in 0..100 give an average in 0..100 |
| NetworkStatus.BandOf | src/components/NetworkStatus.tsx:32-42 | strong iff ≥ 80, medium iff 50..79, poor iff < 50 |
| NetworkStatus.BandMonotone | src/components/NetworkStatus.tsx:32-42 | a higher strength never falls in a lower band |
| NetworkStatus.GetSignalIcon | src/components/NetworkStatus.tsx:32-36 | Wifi/green iff strong, Signal/yellow iff medium, WifiOff/red iff poor |
| NetworkStatus.GetSignalColor | src/components/NetworkStatus.tsx:38-42 | green bar iff strong, yellow iff medium, red iff poor |
| NetworkStatus.IconAgreesWithBar | src/components/NetworkStatus.tsx:32-42 | the icon and the bar of an entry always show the same band |
| NetworkStatus.GetStatusBadge | src/components/NetworkStatus.tsx:44-55 | online → "Online", weak → "Sinal Fraco", offline → "Offline" with the destructive variant (the other two styled by class name), any other string → no badge, each iff |
| NetworkStatus.EveryStatusHasBadge | src/components/NetworkStatus.tsx:44-55 | every declared status has a badge, and distinct statuses have distinct badges |
| NetworkStatus.DeclaredStatusIsNotBand | src/components/NetworkStatus.tsx:18 | entry 4 is declared weak ("Sinal Fraco") while its strength 45 gives the poor band and the WifiOff icon |
| NetworkStatus.SeedReference | src/components/NetworkStatus.tsx:14-22 | the declared entries hold 6 online, 1 weak, 0 offline by direct count |
| NetworkStatus.SeedStatusCounts | src/components/NetworkStatus.tsx:25-27 | the three filters on the declared entries give 6, 1 and 0 |
| NetworkStatus.SeedStrengthSum | src/components/NetworkStatus.tsx:14-22 | the declared strengths add up to 590 |
| NetworkStatus.SeedAvgSignal | src/components/NetworkStatus.tsx:28-30 | the declared entries average to 84 |
| CameraNotifications.ReduceIsSum | src/components/CameraNotifications.tsx:193 | the left fold from acc equals acc plus the sum of the per-camera event counts |
| CameraNotifications.ReduceEvents | src/components/CameraNotifications.tsx:193 | the reducer never lowers its accumulator, and leaves it unchanged iff every camera has no events |
| CameraNotifications.TotalEvents | src/components/CameraNotifications.tsx:193 | totalEvents is the sum of events.length over the cameras, 0 for an empty ledger |
| CameraNotifications.EventSumConcat | src/components/CameraNotifications.tsx:193 | the sum over a ++ b is the sum over a plus the sum over b |
| CameraNotifications.TotalEventsConcat | src/components/CameraNotifications.tsx:193 | total(a ++ b) == total(a) + total(b) |
| CameraNotifications.CameraCountAtMostTotal | src/components/CameraNotifications.tsx:217 | each camera's badge count is at most the header total |
| CameraNotifications.TotalIsAllEventsLength | src/components/CameraNotifications.tsx:206-223 | the header total equals the number of event cards the accordion lists |
| CameraNotifications.AllEvents | src/components/CameraNotifications.tsx:206-224 | an event card is listed iff it is an event of some camera |
| CameraNotifications.GetEventIcon | src/components/CameraNotifications.tsx:154-165 | Baby iff nascimento, Skull iff morte, AlertTriangle iff esmagamento, none iff any other string |
| CameraNotifications.GetEventColor | src/components/CameraNotifications.tsx:167-178 | green iff nascimento, gray iff morte, red iff esmagamento, blue iff any other string |
| CameraNotifications.GetEventBadgeVariant | src/components/CameraNotifications.tsx:180-191 | secondary iff morte, destructive iff esmagamento, default otherwise (including unknown strings) |
| CameraNotifications.EventPresentationAgrees | src/components/CameraNotifications.tsx:154-191 | an icon is shown iff the card is not blue; destructive iff red iff the triangle icon |
| CameraNotifications.UpperChar | src/components/CameraNotifications.tsx:232 | a lower-case ASCII letter becomes its capital; any other character is unchanged |
| CameraNotifications.Capitalize | src/components/CameraNotifications.tsx:232 | same length, first character upper-cased, every other character unchanged |
| CameraNotifications.CapitalizeIdempotent | src/components/CameraNotifications.tsx:232 | capitalising twice is capitalising once |
| CameraNotifications.EventLabels | src/components/CameraNotifications.tsx:232 | the labels read "Nascimento", "Morte", "Esmagamento" |
| CameraNotifications.LabelsDistinct | src/components/CameraNotifications.tsx:232 | distinct event types get distinct labels |
| CameraNotifications.PigletNoun | src/components/CameraNotifications.tsx:236 | "leitão" iff the count is 1, "leitões" otherwise |
| CameraNotifications.GetCountChip | src/components/CameraNotifications.tsx:234-237 | the chip appears iff count is present and non-zero, a stray "0" iff count is 0; it shows the count and its noun |
| CameraNotifications.ChipSingularIffOne | src/components/CameraNotifications.tsx:234-237 | a shown chip reads "leitão" iff count is 1 and "leitões" iff not |
| CameraNotifications.SeedAllEvents | src/components/CameraNotifications.tsx:20-151 | the declared ledger's events are its seven cameras' events in order |
| CameraNotifications.SeedEventIdsUnique | src/components/CameraNotifications.tsx:20-151 | the declared event ids are 1..13 in order, unique across all cameras |
| CameraNotifications.SeedCountsOnlyOnBirths | src/components/CameraNotifications.tsx:20-151 | in the declared ledger only nascimento events carry a count |
| CameraNotifications.SeedTotal | src/components/CameraNotifications.tsx:193 | the declared ledger totals 13 events |
| NotificationsList.GetIcon | src/components/NotificationsList.tsx:65-74 | AlertTriangle iff alerta, CheckCircle iff sucesso, Info for any other string |
| NotificationsList.GetVariant | src/components/NotificationsList.tsx:76-78 | destructive iff alerta, default otherwise |
| NotificationsList.IconColor | src/components/NotificationsList.tsx:94 | red iff alerta, green iff sucesso, blue otherwise |
| NotificationsList.BadgeLabel | src/components/NotificationsList.tsx:101 | "Alerta" iff alerta, "Sucesso" iff sucesso, "Info" otherwise |
| NotificationsList.SeverityMappingsAgree | src/components/NotificationsList.tsx:65-101 | icon, colour and label determine one another; destructive iff the triangle |
| NotificationsList.CardOf | src/components/NotificationsList.tsx:91-118 | a card keeps the id and title; its camera line is shown iff the camera is present and non-empty |
| NotificationsList.CardFollowsSeverity | src/components/NotificationsList.tsx:94-102 | each severity is shown with its own icon, colour, label and variant |
| NotificationsList.Cards | src/components/NotificationsList.tsx:91 | one card per notification, in list order |
| NotificationsList.CardsConcat | src/components/NotificationsList.tsx:91 | the cards of a ++ b are the cards of a followed by those of b |
| NotificationsList.HeaderCount | src/components/NotificationsList.tsx:87 | the header count is the number of cards listed |
| NotificationsList.SeedHeaderCount | src/components/NotificationsList.tsx:15-62 | the header over the declared list reads 6 |
| NotificationsList.SeedCameraLines | src/components/NotificationsList.tsx:15-62 | the declared cards show a camera line on all but the fourth and fifth |
| CameraPreview.StatusConfig | src/components/CameraPreview.tsx:23-27 | ativa → green/"Ativa", alerta → yellow/"Alerta", inativa → gray/"Inativa", each iff |
| CameraPreview.Preview | src/components/CameraPreview.tsx:41-60 | dot and badge come from the status entry; alert icon iff alerta; activity line iff present and non-empty |
| CameraPreview.DotAndBadgeAgree | src/components/CameraPreview.tsx:41-44 | two cards share a dot iff they share a badge iff their status is equal |
| CameraPreview.AlertIconIffYellow | src/components/CameraPreview.tsx:46-50 | the alert icon appears exactly on the yellow-dot cards |
| CameraPreview.SeedActivityShown | src/components/CameraPreview.tsx:58-60 | every declared camera shows its activity line |
| LiveCameraDialog.MuteIcon | src/components/LiveCameraDialog.tsx:68 | VolumeX iff muted, Volume2 iff not |
| LiveCameraDialog.StatusVariant | src/components/LiveCameraDialog.tsx:53 | destructive iff alerta, secondary otherwise |
| LiveCameraDialog.StatusLabel | src/components/LiveCameraDialog.tsx:54 | "Normal" iff ativa, "Atenção" iff alerta, "Inativa" iff inativa |
| LiveCameraDialog.BadgeAgrees | src/components/LiveCameraDialog.tsx:53-54 | destructive iff "Atenção"; distinct statuses get distinct labels |
| LiveCameraDialog.LiveDialog.constructor | src/components/LiveCameraDialog.tsx:25 | a mounted dialog starts muted |
| LiveCameraDialog.LiveDialog.Icon | src/components/LiveCameraDialog.tsx:68 | the button shows VolumeX iff the dialog is muted |
| LiveCameraDialog.LiveDialog.ToggleMute | src/components/LiveCameraDialog.tsx:66 | mute flips, the icon changes, nothing else changes |
| LiveCameraDialog.ToggleTwiceRestores | src/components/LiveCameraDialog.tsx:66 | pressing the button twice restores mute |
| CameraSession.Apply | src/AppLayout1.tsx:82-85 | a click selects the camera and opens the dialog from any state, keeping mute once mounted; onOpenChange sets only `open`; mute flips only in the open dialog |
| CameraSession.RunPreservesValid | src/AppLayout1.tsx:226-235 | the dialog is mounted iff a camera is selected, and only a mounted dialog is open, after any events |
| CameraSession.MountedIffClicked | src/AppLayout1.tsx:226 | after events the dialog is mounted iff it was before or some camera was clicked |
| CameraSession.MountedIffEverSelected | src/AppLayout1.tsx:226 | from the start, the dialog is mounted iff some camera has been selected |
| CameraSession.MuteOnlyByMuteClick | src/AppLayout1.tsx:226-235 | once mounted, mute changes only through the mute button |
| CameraSession.MuteSurvivesCameraSwitch | src/AppLayout1.tsx:226-235 | select, unmute, close, select another camera: it opens unmuted |
| CameraSession.MuteTwiceRestores | src/components/LiveCameraDialog.tsx:66 | two mute clicks restore the session |
| CameraSession.CloseKeepsSelection | src/AppLayout1.tsx:229 | closing keeps the selected camera and mute; closing twice is closing once |
| CameraSession.Selection.constructor | src/AppLayout1.tsx:79-80 | no camera selected, dialog closed and not mounted |
| CameraSession.Selection.HandleCameraClick | src/AppLayout1.tsx:82-85 | the state moves as Apply says; the first selection mounts a fresh dialog, later ones keep the same instance |
| CameraSession.Selection.OnOpenChange | src/AppLayout1.tsx:229 | callable only while the dialog is mounted; the state moves as Apply says and the dialog instance is kept |
| CameraSession.Selection.MuteClick | src/components/LiveCameraDialog.tsx:66 | callable only while the dialog is open; the state moves as Apply says, flipping mute |
| Navigation.Panels | src/AppLayout2.tsx:321-349 | exactly one panel is rendered, the active tab's |
| Navigation.PanelOfInjective | src/AppLayout2.tsx:321-349 | distinct tabs show distinct panels |
| AppLayout2.Menu | src/AppLayout2.tsx:94-100 | five entries in tab order; cameras badge = cameras.length, notifications 6 destructive, others none |
| AppLayout2.CamerasBadgeIsTally | src/AppLayout2.tsx:95 | the cameras badge is the sum of the three tallies |
| AppLayout2.MenuBadgeOf | src/AppLayout2.tsx:167-171 | a badge iff the value is present and non-zero (0 renders a stray "0"), variant = item variant or secondary |
| AppLayout2.MenuBadges | src/AppLayout2.tsx:258-262 | the menu shows the fleet size (secondary), 6 (destructive), nothing else; an empty fleet gives a stray "0" |
| AppLayout2.Step | src/AppLayout2.tsx:158-283 | desktop entry sets only the tab; drawer entry sets the tab and closes the drawer; backdrop and X close, menu opens, tab unchanged |
| AppLayout2.StepPanels | src/AppLayout2.tsx:321-349 | after any event exactly the resulting tab's panel shows; drawer events keep it |
| AppLayout2.DrawerRoundTrip | src/AppLayout2.tsx:185-283 | open then close restores a closed drawer; closing is idempotent |
| AppLayout2.MobileIsDesktopThenClose | src/AppLayout2.tsx:246-249 | a drawer entry equals a desktop entry followed by closing the drawer |
| AppLayout2.Layout.constructor | src/AppLayout2.tsx:80-83 | tab "cameras", drawer closed, no camera selected, dialog closed |
| AppLayout2.Layout.DesktopNavClick | src/AppLayout2.tsx:158 | the navigation state moves as Step says |
| AppLayout2.Layout.MobileNavClick | src/AppLayout2.tsx:246-249 | the two-step update moves the state as Step says |
| AppLayout2.Layout.OverlayClick | src/AppLayout2.tsx:185 | the drawer closes as Step says |
| AppLayout2.Layout.CloseButtonClick | src/AppLayout2.tsx:200 | the drawer closes as Step says |
| AppLayout2.Layout.MenuButtonClick | src/AppLayout2.tsx:283 | the drawer opens as Step says |
| AppLayout2.Layout.HandleCameraClick | src/AppLayout2.tsx:85-88 | on the cameras tab, where the preview cards are rendered, the session moves as Apply says; the navigation cells are unchanged |
| AppLayout3.Menu | src/AppLayout3.tsx:94-100 | five entries in tab order with no variant; cameras badge = cameras.length, notifications 6 |
| AppLayout3.CardBadge | src/AppLayout3.tsx:215-224 | badge iff value non-zero; secondary iff the card is active, default iff not; red iff inactive notifications card |
| AppLayout3.RedBadgeOnlyOnNotifications | src/AppLayout3.tsx:218-220 | a red badge can only be on the notifications card while it is not active |
| AppLayout3.SecondaryOnlyOnActive | src/AppLayout3.tsx:216-217 | a shown badge is secondary iff its card is the active tab |
| AppLayout3.Layout.constructor | src/AppLayout3.tsx:81-83 | tab "cameras", no camera selected, dialog closed |
| AppLayout3.Layout.Shown | src/AppLayout3.tsx:233-296 | exactly the active tab's panel is rendered |
| AppLayout3.Layout.NavClick | src/AppLayout3.tsx:205 | the clicked tab becomes active and its panel is the only one shown |
| AppLayout3.Layout.HandleCameraClick | src/AppLayout3.tsx:85-88 | on the cameras tab, where the preview cards are rendered, the session moves as Apply says; the tab is unchanged |
| AppLayout4.GetStatusColor | src/AppLayout4.tsx:34-38 | gray-400 iff ativa, gray-500 iff alerta, gray-300 for any other string |
| AppLayout4.StatusShadesDistinct | src/AppLayout4.tsx:34-38 | the three statuses get three distinct shades |
| AppLayout4.GetDotColor | src/AppLayout4.tsx:176-180 | the status dot is gray-500 iff ativa, gray-600 iff alerta, gray-300 for any other string |
| AppLayout4.DotShadesDistinct | src/AppLayout4.tsx:176-180 | the three statuses get three distinct dots, and a dot matches its card shade only for inativa |
| AppLayout4.Highlighted | src/AppLayout4.tsx:161 | a card is highlighted iff its id is the selected one, so only with a selection and never two cards of different ids |
| AppLayout4.AtMostOneHighlighted | src/AppLayout4.tsx:160-161 | with unique ids at most one card is highlighted, exactly one iff some camera has the selected id |
| AppLayout4.ClickHighlightsOnlyThatCard | src/AppLayout4.tsx:159-161 | after a click that card and no other is highlighted |
| AppLayout4.CamerasMatchSeed | src/AppLayout4.tsx:13-21 | the wireframe's fleet has the shared fleet's ids, names and statuses |
| AppLayout4.CamerasIdsUnique | src/AppLayout4.tsx:13-21 | the wireframe's camera ids are unique |
| AppLayout4.Layout.constructor | src/AppLayout4.tsx:28 | no card is selected or highlighted |
| AppLayout4.Layout.CardClick | src/AppLayout4.tsx:159 | the clicked id is selected (again on a repeat click); highlighted iff the card has that id |
| LayoutSelector.Render | src/LayoutSelector.tsx:15-20 | the chooser iff nothing is chosen; otherwise exactly the chosen layout |
| LayoutSelector.Step | src/LayoutSelector.tsx:15-30 | a card picks its layout from the chooser; back returns to the chooser; nothing else changes the state |
| LayoutSelector.OnlyBackLeavesLayout | src/LayoutSelector.tsx:15-20 | from a layout the only transition is back to the chooser |
| LayoutSelector.BackReturnsToChooser | src/LayoutSelector.tsx:15-18 | back is idempotent; pick then back shows the chooser |
| LayoutSelector.CardsOpenDistinctLayouts | src/LayoutSelector.tsx:30-106 | the four cards open four different layouts |
| LayoutSelector.Selector.constructor | src/LayoutSelector.tsx:13 | nothing chosen; the chooser is shown |
| LayoutSelector.Selector.PickCard | src/LayoutSelector.tsx:30 | the state moves as Step says and the picked layout is shown |
| LayoutSelector.Selector.Back | src/LayoutSelector.tsx:15-18 | the state moves as Step says and the chooser is shown |

## Left out

- Markup, styling, icons as components and responsive layout are left out. Only the enum-to-token tables are modelled.
- The library components (Dialog, Tabs, Accordion, Badge, Card, Button, Progress) and `ImageWithFallback` are not part of this model. This includes how `Tabs defaultValue` switches panels in layouts 1 and 4, so those two layouts have no tab state here.
- src/components/Settings.tsx is not part of this model. It is a form of independent toggles bound to library widgets, with no handlers on its buttons.
- `NetworkStatus.AvgSignal` computes `Math.round(sum / n)` on integers. The floating-point division is replaced by the exact half-up rounding it approximates. The NaN of an empty list is excluded by the precondition.
- `CameraNotifications.UpperChar` maps only the ASCII letters a–z, where JavaScript's `toUpperCase` maps all of Unicode. The event types are ASCII.
- The hard-coded notifications badge 6 of layouts 1 and 4 and the placeholder grids of layout 4 are fixed markup with no logic.
- Image URLs, timestamps, descriptions, latencies and the network info block are opaque display data. Nothing orders or parses them.
- The dialog's camera name, id and the maximise button carry no state and no handler, so they are not modelled.
- React batching is not modelled. `handleCameraClick` and the drawer entry's two updates are modelled as one atomic step each, which is what the next render sees.
- Unmounting is not modelled in `LayoutSelector.Selector`. Going back and re-entering a layout creates a fresh layout state; the selector holds only `selectedLayout`, not the layouts' own state.
