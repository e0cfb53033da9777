# PartsSample — a Dafny model of its custom UI parts

PartsSample is an iOS (UIKit, Swift) sample app that collects reusable UI
parts:

- a half-modal sheet dismissed by dragging, driven by a percent-driven
  interactor;
- a pinch-to-zoom image grid;
- a flow layout that draws a frame behind every section;
- a page view controller cycling through five home pages;
- a two-per-group content grid;
- a pull-to-refresh control;
- a picker that slides up from the bottom;
- a page switcher that centres the selected tab;
- a carousel whose aspect ratio follows the size class.

This project models the logic of those parts in Dafny 4 and proves what
each part promises. The model follows the Swift code's own shapes:

- Objects whose methods update their fields (the interactor, the view
  controllers, the views, the layout) are Dafny classes with `modifies`
  frames. Their methods are specified against pure functions.
- Computations are pure functions. These include clamps, column counts, the
  next zoom level, page offsets and the effect of one gesture sample on a
  dismissal session.
- Lemmas relate the two:
  - Every session opened by the close handler dismisses once and is closed
    by the reset handler once.
  - The page-4 view controller and the flow layout agree on the number of
    columns.
  - Each framed section gets exactly one decoration.
  - Page navigation is a ring.
  - The content grid holds the first six contents in order.

Geometry uses exact `real` arithmetic. CoreGraphics' floating-point edge
cases are written out where the code depends on them:

- the zero-height division in the dismissal progress;
- `CGRect`'s standardised (non-negative) width;
- the truncation of `Int(_:)`.

Calls into UIKit are recorded in logs rather than performed. These are the
dismissal, the transition's update, finish and cancel, the refresh
animation, the layout transition, and navigation. The logs are fields, so
the order of the calls is part of each contract.

Methods whose names end in `Scenario` (`DragToDismissScenario`, `PinchScenario`,
`SelectModeScenario`, `RefreshCycleScenario`, `CenteringScenario`,
`ShowChooseDoneScenario`, `SelectThenDoneScenario`) are worked examples: concrete
sequences of calls whose outcomes are asserted. They model no single Swift function.

Modules, one per Swift file of the core:

| module | file |
|---|---|
| `Geometry`, `UIKit` | shared value types (`CGSize`, `CGRect`, `UIEdgeInsets`, size classes, gesture states) |
| `HalfModal` | HalfModalTransitioningInteractor.swift |
| `HalfModalController` | SampleHalfModalViewController.swift |
| `PinchZoom` | UIPinchGestureRecognizer+Extension.swift |
| `AllImageView` | AllImageView.swift |
| `AllImagePresenter` | AllImagePresenter.swift |
| `FlowLayout` | CustomFlowLayout.swift |
| `Page4` | Page4ViewController.swift |
| `HomePage` | HomePageViewController.swift |
| `Page1View` | Page1View.swift |
| `RefreshControl` | CustomRefreshControl.swift |
| `PickerView` | CustomPickerView.swift |
| `PickerPresenting` | UIViewController+Extension.swift |
| `PageSwitchView` | PageSwitchView.swift |
| `CarouselView` | CarouselView.swift |

## Model

| member | source | states |
|---|---|---|
| HalfModal.FinishSpeed | PartsSample/Presentation/Common/HalfMordal/HalfModalTransitioningInteractor.swift:35-38 | finishing runs at the speed that covers the rest of the way: speed + percentComplete == 1, and it lies in [0,1] when the progress does |
| HalfModal.CancelSpeed | PartsSample/Presentation/Common/HalfMordal/HalfModalTransitioningInteractor.swift:30-33 | cancelling runs back at the complementary speed: cancel speed + finish speed == 1, in [0,1] for a progress in [0,1] |
| HalfModal.Interactor.Cancel | PartsSample/Presentation/Common/HalfMordal/HalfModalTransitioningInteractor.swift:30-33 | sets completionSpeed to CancelSpeed of the progress, then appends exactly one cancel call with that speed to the host log |
| HalfModal.Interactor.Finish | PartsSample/Presentation/Common/HalfMordal/HalfModalTransitioningInteractor.swift:35-38 | sets completionSpeed to FinishSpeed of the progress, then appends exactly one finish call with that speed |
| HalfModal.Interactor.UpdateStateShouldStartIfNeeded | PartsSample/Presentation/Common/HalfMordal/HalfModalTransitioningInteractor.swift:41-50 | from notInProgress: becomes startInteraction and runs the close handler if set; in every other state: changes nothing |
| HalfModal.Interactor.Reset | PartsSample/Presentation/Common/HalfMordal/HalfModalTransitioningInteractor.swift:52-55 | ends the session (notInProgress) and runs the reset handler once if it is set |
| HalfModal.Interactor.Update | PartsSample/Presentation/Home/ViewController/SampleHalfModalViewController.swift:95 | the transition follows the finger: percentComplete becomes the progress and one update call is logged |
| HalfModalController.Progress | PartsSample/Presentation/Home/ViewController/SampleHalfModalViewController.swift:80-84 | progress is in [0,1]; equals translation/height inside the view, 0 above it, 1 past it; for a zero height it is 1 exactly when the translation is positive, else 0 (fmaxf drops NaN) |
| HalfModalController.ChangedState | PartsSample/Presentation/Home/ViewController/SampleHalfModalViewController.swift:87-93 | a changed sample commits to closing (shouldClose) iff progress > 0.1 or velocity > 1200, otherwise keeps tracking (inProgress) |
| HalfModalController.GestureStep | PartsSample/Presentation/Home/ViewController/SampleHalfModalViewController.swift:67-110 | a sample without a session changes nothing; on a running session the host log only grows, the session ends exactly on ended or cancelled, and a just-started session is always moved on to tracking |
| HalfModalController.SampleHalfModalViewController.HandleTransitionGesture | PartsSample/Presentation/Home/ViewController/SampleHalfModalViewController.swift:67-110 | the new interactor state, progress, speed and host log are exactly GestureStep of the old ones: start → dismiss(interactive) then phase handling; no session → nothing |
| HalfModalController.SampleHalfModalViewController.HeaderGestureRecognized | PartsSample/Presentation/Home/ViewController/SampleHalfModalViewController.swift:122-127 | opens a session if none runs, then applies the sample; keeps the handler/dismiss balance invariant (Valid) |
| HalfModalController.SampleHalfModalViewController.TableViewGestureRecognized | PartsSample/Presentation/Home/ViewController/SampleHalfModalViewController.swift:130-138 | opens a session only when the table is scrolled to its top (offset <= 0), then applies the sample; keeps the balance invariant |
| HalfModalController.SampleHalfModalViewController.InteractionControllerForDismissal | PartsSample/Presentation/Home/ViewController/SampleHalfModalViewController.swift:157-164 | the interactor is handed to UIKit iff a drag is being tracked (inProgress or startInteraction), else nil |
| HalfModalController.SampleHalfModalViewController.ScrollViewDidScroll | PartsSample/Presentation/Home/ViewController/SampleHalfModalViewController.swift:140-142 | records the table view's vertical offset |
| HalfModalController.SampleHalfModalViewController.SetupInteractor | PartsSample/Presentation/Home/ViewController/SampleHalfModalViewController.swift:55-64 | both the close and the reset handler are installed |
| HalfModalController.SampleHalfModalViewController.constructor | PartsSample/Presentation/Home/ViewController/SampleHalfModalViewController.swift:34-39 | after loading, no session runs, nothing was logged and the balance invariant holds |
| HalfModalController.SampleHalfModalViewController.GestureKeepsValid | PartsSample/Presentation/Home/ViewController/SampleHalfModalViewController.swift:122-138 | a sample taken from a valid controller, after an optional session start, leaves it valid |
| HalfModalController.StartKeepsBalanced | PartsSample/Presentation/Common/HalfMordal/HalfModalTransitioningInteractor.swift:41-50 | opening a session keeps #close == #reset + (running ? 1 : 0), #close == #dismiss(true) + (just started ? 1 : 0) and no non-interactive dismiss |
| HalfModalController.StepCounts | PartsSample/Presentation/Home/ViewController/SampleHalfModalViewController.swift:67-110 | one sample on a running session adds no close-handler call and no non-interactive dismiss, one dismiss iff the session was just started, one reset iff the session ends |
| HalfModalController.StepKeepsBalanced | PartsSample/Presentation/Home/ViewController/SampleHalfModalViewController.swift:67-110 | every gesture sample preserves the handler/dismiss balance |
| HalfModalController.StraySampleIsIgnored | PartsSample/Presentation/Home/ViewController/SampleHalfModalViewController.swift:75-76 | a sample while no session runs changes nothing at all |
| HalfModalController.StartRunsCloseHandlerOnce | PartsSample/Presentation/Common/HalfMordal/HalfModalTransitioningInteractor.swift:41-50 | starting is idempotent; from notInProgress it logs exactly one close-handler call; otherwise the session is untouched |
| HalfModalController.DismissOncePerSession | PartsSample/Presentation/Home/ViewController/SampleHalfModalViewController.swift:69-77 | the dismiss call is made exactly once per session, by its first sample, right after the calls already logged |
| HalfModalController.ChangedSampleCommits | PartsSample/Presentation/Home/ViewController/SampleHalfModalViewController.swift:86-95 | a changed sample commits iff past the distance or speed threshold, and forwards the progress as the last host call |
| HalfModalController.EndedSampleResolves | PartsSample/Presentation/Home/ViewController/SampleHalfModalViewController.swift:99-106 | release finishes iff closing was committed, cancels otherwise, then resets; the session ends |
| HalfModalController.CancelledSampleResolves | PartsSample/Presentation/Home/ViewController/SampleHalfModalViewController.swift:96-98 | an interrupted gesture cancels then resets; the session ends |
| PinchZoom.ZoomStatusOf | PartsSample/Presentation/UIKitExtension/UIPinchGestureRecognizer+Extension.swift:13-15 | zooming in iff scale > 1 |
| PinchZoom.TransitionProgress | PartsSample/Presentation/UIKitExtension/UIPinchGestureRecognizer+Extension.swift:17-30 | progress is in [0,1]; zoom in maps scale 1..2 to 0..1, zoom out maps 1..0.5 to 0..1, saturating outside; scale 1 gives 0 |
| PinchZoom.ProgressMonotone | PartsSample/Presentation/UIKitExtension/UIPinchGestureRecognizer+Extension.swift:17-30 | progress grows with the scale when zooming in and shrinks with it when zooming out |
| AllImageView.CellHorizontalCount.RawValue | PartsSample/Presentation/Home/CustomView/AllImageView.swift:28-29 | the cells per row are 2, 4, 8 or 16 |
| AllImageView.CellHorizontalCount.Rank | PartsSample/Presentation/Home/CustomView/AllImageView.swift:28-29 | the raw value is 2^(rank+1), rank < 4 |
| AllImageView.CellHorizontalCount.Next | PartsSample/Presentation/Home/CustomView/AllImageView.swift:31-52 | zooming in never adds columns and zooming out never removes any; one step moves at most one level; regular width never reaches wide, compact never reaches superNarrow |
| AllImageView.NextDoublesOrHalves | PartsSample/Presentation/Home/CustomView/AllImageView.swift:31-52 | a pinch doubles, halves or keeps the number of cells in a row, never jumping a level |
| AllImageView.FixedPoints | PartsSample/Presentation/Home/CustomView/AllImageView.swift:31-52 | the level stays put exactly at wide+zoom-in, superNarrow+zoom-out, narrow+zoom-out (compact) and middle+zoom-in (regular) |
| AllImageView.ScrollHandleRatio | PartsSample/Presentation/Home/CustomView/AllImageView.swift:116-120 | the handle position as a fraction in [0,1]: location/track inside the track, clamped to 0 above and 1 below |
| AllImageView.AllImageView.constructor | PartsSample/Presentation/Home/CustomView/AllImageView.swift:64-68 | starts zoomed in at the middle level, no pending level, pinch enabled, no transition |
| AllImageView.AllImageView.TraitCollectionDidChange | PartsSample/Presentation/Home/CustomView/AllImageView.swift:101-110 | regular width shows the narrow level, any other the middle level |
| AllImageView.AllImageView.DisplayedCount | PartsSample/Presentation/Home/CustomView/AllImageView.swift:386-391 | the pending level while a pinch is under way, the current one otherwise |
| AllImageView.AllImageView.SizeForItem | PartsSample/Presentation/Home/CustomView/AllImageView.swift:383-399 | the displayed number of cells plus the two 16-pt margins fill the width exactly; height = 1.2 × width |
| AllImageView.AllImageView.PinchGesture | PartsSample/Presentation/Home/CustomView/AllImageView.swift:234-284 | began fixes the zoom direction and the next level and starts a transition; changed tracks progress only inside a transition; ended commits the next level iff progress > 0.5, finishes or cancels, and disables the pinch; other states change nothing |
| AllImageView.AllImageView.TransitionDidComplete | PartsSample/Presentation/Home/CustomView/AllImageView.swift:253-256 | when the transition's animation ends the pinch is re-enabled and no level is pending |
| AllImageView.AllImageView.ScrollHandleMoved | PartsSample/Presentation/Home/CustomView/AllImageView.swift:112-137 | the content offset is the scrollable height times the handle ratio, hence within [0, scrollable height] |
| AllImagePresenter.ImageFor | PartsSample/Presentation/Home/Presenter/AllImagePresenter.swift:66-90 | the dummy item at index i shows image i mod 6 + 1, always one of the six images |
| AllImagePresenter.DummyItems | PartsSample/Presentation/Home/Presenter/AllImagePresenter.swift:66-90 | n items, the i-th being the dummy item of list k at index i |
| AllImagePresenter.DummyListsShape | PartsSample/Presentation/Home/Presenter/AllImagePresenter.swift:66-90 | three titled lists of 100 items, item i of list k priced 100(k+1)+i with image i mod 6 + 1; the fallback image 7 never appears |
| AllImagePresenter.AllImagePresenter.SetupDummyData | PartsSample/Presentation/Home/Presenter/AllImagePresenter.swift:66-90 | appends exactly the three dummy lists to the stored lists |
| AllImagePresenter.AllImagePresenter.constructor | PartsSample/Presentation/Home/Presenter/AllImagePresenter.swift:66-90 | starts outside select mode holding the three dummy lists |
| AllImagePresenter.AllImagePresenter.OnViewDidLoad | PartsSample/Presentation/Home/Presenter/AllImagePresenter.swift:33-36 | hands every stored list to the view |
| AllImagePresenter.AllImagePresenter.SetSelectModeView | PartsSample/Presentation/Home/Presenter/AllImagePresenter.swift:59-64 | the view's select mode mirrors the presenter's and the toolbar shows only in select mode |
| AllImagePresenter.AllImagePresenter.OnViewWillDisappear | PartsSample/Presentation/Home/Presenter/AllImagePresenter.swift:38-41 | leaving the screen always leaves select mode and hides the toolbar |
| AllImagePresenter.AllImagePresenter.OnEditButtonTapped | PartsSample/Presentation/Home/Presenter/AllImagePresenter.swift:43-46 | toggles select mode and updates the view to match |
| AllImagePresenter.AllImagePresenter.OnImageTapped | PartsSample/Presentation/Home/Presenter/AllImagePresenter.swift:48-53 | navigates to the detail of the tapped item's image iff the index path is inside the lists, otherwise does nothing |
| FlowLayout.ColumnsFitting | PartsSample/Presentation/Common/CustomCollectionViewLayout/CustomFlowLayout.swift:103-109 | at least one column; when one item fits, n items and n-1 gaps fit the width and n+1 items do not; otherwise exactly one column |
| FlowLayout.ColumnsFittingMeaning | PartsSample/Presentation/Common/CustomCollectionViewLayout/CustomFlowLayout.swift:103-109 | the truncated quotient (width+spacing)/(item+spacing) is the largest number of items that fit with their gaps |
| FlowLayout.FitBounds | PartsSample/Presentation/Common/CustomCollectionViewLayout/CustomFlowLayout.swift:103-109 | the whole part m of (width+spacing)/(item+spacing) satisfies m items + (m-1) gaps <= width < (m+1) items + m gaps |
| FlowLayout.RowCount | PartsSample/Presentation/Common/CustomCollectionViewLayout/CustomFlowLayout.swift:43-48 | rows = ceil(items/columns): enough rows for all items and no spare one |
| FlowLayout.CustomFlowLayout.constructor | PartsSample/Presentation/Common/CustomCollectionViewLayout/CustomFlowLayout.swift:30-54 | no collection view and no frames yet; flow-layout defaults for item size, spacings, insets and supplementary sizes |
| FlowLayout.CustomFlowLayout.AvailableWidth | PartsSample/Presentation/Common/CustomCollectionViewLayout/CustomFlowLayout.swift:103-109 | the width left inside the section and layout margins is never negative (a CGRect width is standardised) |
| FlowLayout.CustomFlowLayout.NumberOfColumns | PartsSample/Presentation/Common/CustomCollectionViewLayout/CustomFlowLayout.swift:103-109 | 0 without a collection view; otherwise at least one, the number of items that fit the available width |
| FlowLayout.CustomFlowLayout.StackedFrames | PartsSample/Presentation/Common/CustomCollectionViewLayout/CustomFlowLayout.swift:30-54 | one frame per section, full width at x = 0, height = header + rows × items + gaps + insets + footer, the first at y = 0 and each starting where the previous ends |
| FlowLayout.CustomFlowLayout.Prepare | PartsSample/Presentation/Common/CustomCollectionViewLayout/CustomFlowLayout.swift:30-54 | without a collection view nothing changes; otherwise the section frames are stacked as StackedFrames describes |
| FlowLayout.CustomFlowLayout.DecorationAttributes | PartsSample/Presentation/Common/CustomCollectionViewLayout/CustomFlowLayout.swift:56-74 | a decoration exists iff the kind is the section-frame kind and the section has a frame; it lies inside the section's frame minus the header and insets, behind the cells (z = -2) |
| FlowLayout.CustomFlowLayout.DecorationsOnePerSection | PartsSample/Presentation/Common/CustomCollectionViewLayout/CustomFlowLayout.swift:76-96 | the added decorations cover exactly the framed sections of the attributes, one per section, each that section's decoration, never more than the attributes |
| FlowLayout.CustomFlowLayout.FramedSectionsAppend | PartsSample/Presentation/Common/CustomCollectionViewLayout/CustomFlowLayout.swift:76-96 | one more attribute adds its section to the framed ones exactly when that section has a frame |
| FlowLayout.CustomFlowLayout.LayoutAttributesForElements | PartsSample/Presentation/Common/CustomCollectionViewLayout/CustomFlowLayout.swift:76-96 | no attributes from the superclass gives none; otherwise the superclass's attributes followed by their decorations, in order |
| FlowLayout.SectionsOfAppend | PartsSample/Presentation/Common/CustomCollectionViewLayout/CustomFlowLayout.swift:83-91 | a decoration for a section not yet decorated keeps the sections distinct and adds exactly that section |
| Page4.NumberOfSections | PartsSample/Presentation/Home/ViewController/Page4ViewController.swift:112-114 | one section per season of the text list: 4 |
| Page4.NumberOfItems | PartsSample/Presentation/Home/ViewController/Page4ViewController.swift:116-118 | a section has as many cells as its lines: 3, 4, 12, 12 |
| Page4.ItemCounts | PartsSample/Presentation/Home/ViewController/Page4ViewController.swift:112-118 | the per-section item counts handed to the collection view |
| Page4.ColumnCount | PartsSample/Presentation/Home/ViewController/Page4ViewController.swift:80-98 | at least one column for a non-negative width, never zero; from 200 pt on, as many 200-pt cells with 2-pt gaps as fit and no more |
| Page4.CellWidth | PartsSample/Presentation/Home/ViewController/Page4ViewController.swift:80-98 | the columns of this width and their gaps fill the available width exactly |
| Page4.CellsAreWideEnough | PartsSample/Presentation/Home/ViewController/Page4ViewController.swift:80-98 | when a 200-pt cell fits, the stretched cells are at least 200 pt wide |
| Page4.LayoutAgreesOnColumns | PartsSample/Presentation/Home/ViewController/Page4ViewController.swift:80-98 | the flow layout, given the computed cell width, lays out exactly the column count the view controller chose |
| Page4.Page4ViewController.constructor | PartsSample/Presentation/Home/ViewController/Page4ViewController.swift:68-78 | a fresh layout and collection view whose sections have the text list's item counts |
| Page4.Page4ViewController.UpdateLayout | PartsSample/Presentation/Home/ViewController/Page4ViewController.swift:80-98 | the collection view spans the safe area; the item size is the computed cell width × 50 and the layout then shows that many columns (>= 1); the header is as wide as the view and 60 high |
| HomePage.Before | PartsSample/Presentation/Home/ViewController/HomePageViewController.swift:72-86 | a page exists before exactly the valid pages, and it is the previous one cyclically |
| HomePage.After | PartsSample/Presentation/Home/ViewController/HomePageViewController.swift:88-102 | a page exists after exactly the valid pages, and it is the next one cyclically |
| HomePage.BeforeAfterInverse | PartsSample/Presentation/Home/ViewController/HomePageViewController.swift:72-102 | after then before, and before then after, return to the same page |
| HomePage.SwipeForward | PartsSample/Presentation/Home/ViewController/HomePageViewController.swift:88-102 | repeated forward swipes always land on a valid page |
| HomePage.SwipeForwardIsRing | PartsSample/Presentation/Home/ViewController/HomePageViewController.swift:88-102 | k forward swipes from page i land on (i + k) mod 5 |
| HomePage.TargetPage | PartsSample/Presentation/Home/ViewController/HomePageViewController.swift:48-54 | a valid index is shown as is; any other index falls back to page 0 |
| HomePage.DirectionTo | PartsSample/Presentation/Home/ViewController/HomePageViewController.swift:57-60 | the transition runs in reverse iff the target page is before the current one |
| HomePage.HomePageViewController.constructor | PartsSample/Presentation/Home/ViewController/HomePageViewController.swift:31-40 | shows page 0 with a forward, non-animated transition |
| HomePage.HomePageViewController.SetPage | PartsSample/Presentation/Home/ViewController/HomePageViewController.swift:46-66 | the current page becomes the target page and one animated transition toward it is logged, reversed iff it lies before the old page |
| HomePage.HomePageViewController.Swipe | PartsSample/Presentation/Home/ViewController/HomePageViewController.swift:72-102 | a swipe moves to the data source's next or previous page |
| HomePage.HomePageViewController.DidFinishAnimating | PartsSample/Presentation/Home/ViewController/HomePageViewController.swift:108-118 | the delegate hears the current page iff the transition completed and a delegate is set |
| Page1View.GroupOf | PartsSample/Presentation/Home/CustomView/Page1View.swift:93-127 | the content at position k joins group k/2 iff k < 6, i.e. one of the 3 groups of 2 |
| Page1View.GroupsHoldFirstSix | PartsSample/Presentation/Home/CustomView/Page1View.swift:93-127 | the three groups hold at most two contents each and, concatenated, exactly the first six contents in order |
| Page1View.PlacedInItsGroup | PartsSample/Presentation/Home/CustomView/Page1View.swift:93-127 | each of the first six contents sits in group k/2 at slot k mod 2; later ones in no group |
| Page1View.SlotGrows | PartsSample/Presentation/Home/CustomView/Page1View.swift:93-127 | adding one of the first six contents extends only its own group; an odd position's left neighbour heads that group |
| Page1View.GroupsSettled | PartsSample/Presentation/Home/CustomView/Page1View.swift:97-106 | contents beyond the sixth leave the groups unchanged |
| Page1View.PinsKeep | PartsSample/Presentation/Home/CustomView/Page1View.swift:93-127 | constraints already placed stay those of their positions when a content is added |
| Page1View.PinsAppend | PartsSample/Presentation/Home/CustomView/Page1View.swift:104-126 | placing the next position's constraint keeps every constraint the one for its position |
| Page1View.Page1View.constructor | PartsSample/Presentation/Home/CustomView/Page1View.swift:93-127 | no contents, no constraints, the grid invariant holds |
| Page1View.Page1View.AddContent | PartsSample/Presentation/Home/CustomView/Page1View.swift:93-127 | records the content; while fewer than six were placed it joins its group and one constraint pinning it left (even) or right with the left view's width (odd) is added; the groups always equal Groups(contents) |
| Page1View.Page1View.LayoutForSizeClass | PartsSample/Presentation/Home/CustomView/Page1View.swift:129-146 | regular width lays every group out horizontally and hides the banner; otherwise vertical with the banner shown |
| RefreshControl.PullProgress | PartsSample/Presentation/Common/PullToRefresh/CustomRefreshControl.swift:55 | the indicator's rotation is in [0,1]: the pulled distance over 150, saturating at 1 |
| RefreshControl.PullProgressMonotone | PartsSample/Presentation/Common/PullToRefresh/CustomRefreshControl.swift:55 | pulling further never turns the indicator back |
| RefreshControl.IndicatorY | PartsSample/Presentation/Common/PullToRefresh/CustomRefreshControl.swift:60 | the indicator sits 60 pt above the content's top edge: y + offset + 60 == 0 |
| RefreshControl.CustomRefreshControl.constructor | PartsSample/Presentation/Common/PullToRefresh/CustomRefreshControl.swift:19-30 | not refreshing, not animating, no end pending |
| RefreshControl.CustomRefreshControl.BeginRefreshingByUser | PartsSample/Presentation/Common/PullToRefresh/CustomRefreshControl.swift:91-97 | a user pull starts refreshing, and the value-changed handler starts the animation |
| RefreshControl.CustomRefreshControl.EndRefreshing | PartsSample/Presentation/Common/PullToRefresh/CustomRefreshControl.swift:34-39 | refreshing stops, the animation is stopped and the end is marked pending |
| RefreshControl.CustomRefreshControl.UpdateProgress | PartsSample/Presentation/Common/PullToRefresh/CustomRefreshControl.swift:45-61 | resets iff an end is pending and the view is back at the top; the rotation follows the pull only while not animating and stays in [0,1]; the indicator tracks the offset |
| RefreshControl.CustomRefreshControl.ResetIfNotRefreshing | PartsSample/Presentation/Common/PullToRefresh/CustomRefreshControl.swift:64-68 | resets iff not refreshing, otherwise changes nothing |
| RefreshControl.CustomRefreshControl.HandleRefreshControl | PartsSample/Presentation/Common/PullToRefresh/CustomRefreshControl.swift:91-97 | starts the animation iff refreshing |
| RefreshControl.CustomRefreshControl.Reset | PartsSample/Presentation/Common/PullToRefresh/CustomRefreshControl.swift:99-103 | not animating, no end pending, one reset of the animation view logged |
| PickerView.CustomPickerView.constructor | PartsSample/Presentation/Common/CustomPickerView.swift:16-17 | empty data, row 0 selected, no done callback |
| PickerView.CustomPickerView.SetData | PartsSample/Presentation/Common/CustomPickerView.swift:39-47 | stores the choices and the selected row as given |
| PickerView.CustomPickerView.DidTapDoneButton | PartsSample/Presentation/Common/CustomPickerView.swift:104-107 | the done callback receives the selected choice's value iff a callback is set and the selected row (numbered from 0) is below the number of rows |
| PickerView.CustomPickerView.NumberOfComponents | PartsSample/Presentation/Common/CustomPickerView.swift:113-115 | the picker has a single column |
| PickerView.CustomPickerView.NumberOfRows | PartsSample/Presentation/Common/CustomPickerView.swift:117-119 | one row per choice of the data |
| PickerView.CustomPickerView.TitleForRow | PartsSample/Presentation/Common/CustomPickerView.swift:125-128 | a row has a title iff it is within the data, and that title is the choice's |
| PickerView.CustomPickerView.DidSelectRow | PartsSample/Presentation/Common/CustomPickerView.swift:130-132 | the picked row becomes the selected row |
| PickerView.RowsShowTheData | PartsSample/Presentation/Common/CustomPickerView.swift:113-128 | one component; the rows with a title are exactly the data's rows, each showing its choice's title |
| PickerView.SelectThenDoneScenario | PartsSample/Presentation/Common/CustomPickerView.swift:104-132 | selecting a valid row and tapping done hands over that row's value |
| PickerPresenting.OpenOffset | PartsSample/Presentation/UIKitExtension/UIViewController+Extension.swift:61 | the open picker's top sits one picker height plus the bottom safe area above the view's bottom (negative offset) |
| PickerPresenting.Opened | PartsSample/Presentation/UIKitExtension/UIViewController+Extension.swift:82-91 | open iff the top constraint exists and is off zero |
| PickerPresenting.PickerHost.constructor | PartsSample/Presentation/UIKitExtension/UIViewController+Extension.swift:21-30 | no picker, no constraint, nothing handed over |
| PickerPresenting.PickerHost.IsPickerOpened | PartsSample/Presentation/UIKitExtension/UIViewController+Extension.swift:82-91 | open iff the top constraint exists and its constant is not zero |
| PickerPresenting.PickerHost.ShowPicker | PartsSample/Presentation/UIKitExtension/UIViewController+Extension.swift:21-65 | reuses the existing picker or creates one, at most one picker and one top constraint ever; sets its data; the picker is 220 + safe area high and its top constraint ends at the open offset |
| PickerPresenting.PickerHost.ClosePicker | PartsSample/Presentation/UIKitExtension/UIViewController+Extension.swift:68-79 | puts an existing top constraint back to 0; the picker is then closed |
| PickerPresenting.PickerHost.TapDone | PartsSample/Presentation/UIKitExtension/UIViewController+Extension.swift:34-37 | on a valid selection the done process (if any) receives the value and the picker closes; otherwise nothing happens |
| PageSwitchView.CenteringOffset | PartsSample/Presentation/Home/CustomView/PageSwitchView.swift:55-59 | the offset puts the strip's middle on the scroll view's middle; a strip narrower than the view gets a negative offset |
| PageSwitchView.PageCenter | PartsSample/Presentation/Home/CustomView/PageSwitchView.swift:72-77 | the middle of button `index` is (index + ½) button widths from the left, strictly inside the content for a valid page |
| PageSwitchView.PageOffset | PartsSample/Presentation/Home/CustomView/PageSwitchView.swift:73-85 | the scroll offset centres the page's button when possible and never scrolls past the content's end nor (for content wider than the view) before its start |
| PageSwitchView.IndicatorX | PartsSample/Presentation/Home/CustomView/PageSwitchView.swift:93-95 | the indicator sits at index/pageCount of the content width, inside the content for a valid page |
| PageSwitchView.IndicatorWithinContent | PartsSample/Presentation/Home/CustomView/PageSwitchView.swift:93-95 | the written formula index × (width / count) is the indicator position and lies inside the content |
| PageSwitchView.PageSwitchView.constructor | PartsSample/Presentation/Home/CustomView/PageSwitchView.swift:32 | no page selected yet (-1), nothing scrolled |
| PageSwitchView.PageSwitchView.UpdatePageIndex | PartsSample/Presentation/Home/CustomView/PageSwitchView.swift:68-100 | indexes past the last page change nothing; any other index (the guard checks only the upper bound) is selected, the strip scrolls to PageOffset only when it is wider than its bounds, and the indicator moves to IndicatorX |
| PageSwitchView.PageSwitchView.LayoutSubviews | PartsSample/Presentation/Home/CustomView/PageSwitchView.swift:51-62 | when the view is wider than its 100-pt buttons together, the strip is centred by CenteringOffset; otherwise the scroll position is kept |
| PageSwitchView.PageSwitchView.UpdateLayoutWithCurrentIndex | PartsSample/Presentation/Home/CustomView/PageSwitchView.swift:103-107 | with no page selected, or a selected index past the last page, nothing changes; otherwise the selected page is laid out again as UpdatePageIndex does |
| CarouselView.AspectRatio | PartsSample/Presentation/Home/CustomView/CarouselView.swift:49-64 | the carousel is always less than half as tall as it is wide; at least 0.2 of its width under a compact width, at most 0.24 otherwise |
| CarouselView.AspectRatioOrder | PartsSample/Presentation/Home/CustomView/CarouselView.swift:49-64 | compact rows are taller than any other, larger sizes are taller in each size class, and every non-compact class shares the regular ratio |
| CarouselView.LayoutSizeClass | PartsSample/Presentation/Home/CustomView/CarouselView.swift:81-98 | layout asks for regular iff the trait is regular, never for unspecified |
| CarouselView.CallSitesDifferWhenUnspecified | PartsSample/Presentation/Home/CustomView/CarouselView.swift:163-165 | with an unspecified size class the ratio set at creation is flatter than the one the layout pass applies; with a known class the two agree |
| CarouselView.ItemViews | PartsSample/Presentation/Home/CustomView/CarouselView.swift:104-108 | one item view per item, in order, showing its image and price |
| CarouselView.CarouselView.constructor | PartsSample/Presentation/Home/CustomView/CarouselView.swift:68-77 | keeps title, size and tag; the initial ratio is the unspecified-class one; no items |
| CarouselView.CarouselView.LayoutSubviews | PartsSample/Presentation/Home/CustomView/CarouselView.swift:81-98 | the aspect ratio follows the current size class |
| CarouselView.CarouselView.SetItems | PartsSample/Presentation/Home/CustomView/CarouselView.swift:104-108 | appends one item view per item, in order |
| CarouselView.CarouselView.DidTapDetailButton | PartsSample/Presentation/Home/CustomView/CarouselView.swift:196-198 | the delegate hears the carousel's tag iff a delegate is set |

## Left out

- View construction, Auto Layout/SnapKit constraints other than the picker's top constraint, colours, fonts, images, dark-mode notifications and `UIView.animate` durations: they do not affect the modelled state.
- Floating point: geometry is exact `real` arithmetic. Only the cases the code depends on are written out: a zero-height division in the dismissal progress, the standardised `CGRect` width and `Int(_:)` truncation. Rounding of `CGFloat` is not modelled, so the agreement between Page 4's and the flow layout's column counts is proved in exact arithmetic only.
- UIKit itself is not modelled. This covers the percent-driven transition's animation, `dismiss`, the interactive layout transition, `UIPageViewController`'s page curl, and `UIRefreshControl`'s own refreshing state. Their effects appear only as entries in call logs.
- Handler closures (close/reset handlers, done processes, delegates) are modelled as flags plus log entries; their bodies belong to other views not part of this model.
- `backgroundDidTap` (a plain `dismiss`), the presentation/animation controllers of the half modal, scroll-handle show/hide timers (`DispatchWorkItem`), the scroll-view delegate's handle visibility, and `withComma` price formatting are not part of this model.
- RefreshAnimationView's drawing and rotation, the dismiss animator and the modal presentation controller are not part of this model.
- PageSwitchView's button creation, `didTapPageButton` and the `setNeedsLayout` call that ends its `layoutSubviews` are not part of this model. No code in the modelled files calls `updateLayoutWithCurrentIndex`, so it is modelled on its own.
- Page 1's banner content and Page1ViewController are not part of this model.
- HalfModalController.SampleHalfModalViewController.HandleTransitionGesture: requires the reset handler to be installed, which `viewDidLoad` always does before any gesture can arrive.
- HomePage.HomePageViewController.Swipe: the swipe itself is UIKit's; the model takes UIKit to move to the page the data source returns.
- RefreshControl.CustomRefreshControl.BeginRefreshingByUser: stands for UIKit setting `isRefreshing` on a user pull and then firing the value-changed action.
- PageSwitchView.PageSwitchView.SetGeometry: stands for the frame sizes UIKit assigns during layout.
- PageSwitchView.PageSwitchView.UpdatePageIndex: requires at least one page whenever the index is in range. With no pages the Swift code divides by zero in `CGFloat` (infinity or NaN offsets), which is not modelled.
- HalfModalController.Progress: the narrowing `Float(verticalMovement)` at PartsSample/Presentation/Home/ViewController/SampleHalfModalViewController.swift:82-84 is not modelled; the model keeps the exact quotient. At exactly translation/height = 0.1 (50 over a 500-pt view) the app's 24-bit `Float` rounds up to 0.10000000149, so its `.changed` branch commits to closing, while HalfModalController.ChangedState on the model's exact 0.1 keeps tracking. Quotients a little below 0.1 (down to about 0.0999999978) round to the same `Float` and commit too.
- AllImageView.ScrollHandleRatio: excludes 0/0 (a zero-height track touched exactly at its top), where Swift's generic `min`/`max` pass the NaN through and the content offset becomes NaN. The same applies to AllImageView.AllImageView.ScrollHandleMoved.
- FlowLayout.ColumnsFitting: requires item width + spacing to be non-zero, because in Swift `Int(_:)` of an infinite quotient traps. The same applies to FlowLayout.CustomFlowLayout.NumberOfColumns and FlowLayout.CustomFlowLayout.Prepare.
- PickerView.CustomPickerView.SetData: takes the selected row as a `nat`, because `setData` and `showPicker` document the row as numbered from 0. The Done button's guard checks only the upper bound, so on a negative row Swift would trap; that input is outside the documented domain. The same applies to PickerPresenting.PickerHost.ShowPicker and PickerView.CustomPickerView.DidSelectRow.
- PickerView.CustomPickerView.TitleForRow: takes a `nat` row. UIKit never asks for a negative row, and Swift would trap on one. The same applies to AllImagePresenter.AllImagePresenter.OnImageTapped and Page 4's section index.
- `invalidateLayout` and the moments UIKit chooses to call `prepare()` are not modelled; `Prepare` is called explicitly.
