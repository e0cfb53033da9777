/** The presenter of the all-images screen (AllImagePresenter.swift):
    select mode, the dummy image lists and the tap on an image. */
module AllImagePresenter {
  /** Number of items in each dummy list. */
  const ItemsPerList: nat := 100

  /** An image asset `item1` ... `item7`, by number, and a price. */
  datatype ImageItem = ImageItem(image: nat, price: int)

  type ImageList = (string, seq<ImageItem>)

  /** A navigation to the image detail screen. */
  datatype Navigation = GotoImageDetail(section: nat, row: nat, image: nat)

  const ListTitles: seq<string> := ["画像リスト１", "画像リスト２", "画像リスト３"]

  /** The image of dummy item `i`: the six images in turn. */
  function ImageFor(i: nat): (image: nat)
    ensures image == i % 6 + 1
    ensures 1 <= image <= 6
  {
    match i % 6
    case 0 => 1
    case 1 => 2
    case 2 => 3
    case 3 => 4
    case 4 => 5
    case 5 => 6
    case _ => 7
  }

  /** Item `i` of the `k`-th dummy list (k = 1, 2, 3). */
  function DummyItem(k: nat, i: nat): ImageItem
  {
    ImageItem(ImageFor(i), 100 * k + i)
  }

  /** The first `n` items of the `k`-th dummy list. */
  function DummyItems(k: nat, n: nat): (items: seq<ImageItem>)
    ensures |items| == n
    ensures forall i :: 0 <= i < n ==> items[i] == DummyItem(k, i)
  {
    seq(n, i requires 0 <= i => DummyItem(k, i))
  }

  /** The three dummy lists, titled in order. */
  function DummyLists(): seq<ImageList>
  {
    [(ListTitles[0], DummyItems(1, ItemsPerList)),
     (ListTitles[1], DummyItems(2, ItemsPerList)),
     (ListTitles[2], DummyItems(3, ItemsPerList))]
  }

  /** Three lists of 100 items; item `i` of list `k` costs 100·k + i and
      shows image `i % 6 + 1`, so the seventh image is never used. */
  lemma DummyListsShape()
    ensures var lists := DummyLists();
            && |lists| == 3
            && (forall k :: 0 <= k < 3 ==> lists[k].0 == ListTitles[k] && |lists[k].1| == ItemsPerList)
            && (forall k, i :: 0 <= k < 3 && 0 <= i < ItemsPerList ==>
                  lists[k].1[i].price == 100 * (k + 1) + i && lists[k].1[i].image == i % 6 + 1)
            && (forall k, i :: 0 <= k < 3 && 0 <= i < ItemsPerList ==> lists[k].1[i].image != 7)
  {
  }

  class AllImagePresenter {
    var isSelectMode: bool
    var lists: seq<ImageList>
    /** The view's checkbox mode, as last set. */
    var viewSelectMode: bool
    /** Whether the navigation toolbar is hidden, as last set. */
    var toolbarHidden: bool
    /** Lists handed to the view controller. */
    var shownLists: seq<ImageList>
    /** Navigations to the detail screen, in order. */
    var navigations: seq<Navigation>

    /** `init(viewController:)`: select mode off, dummy lists loaded. */
    constructor ()
      ensures !isSelectMode && lists == DummyLists()
      ensures shownLists == [] && navigations == []
    {
      isSelectMode := false;
      lists := [];
      viewSelectMode := false;
      toolbarHidden := true;
      shownLists := [];
      navigations := [];
      new;
      SetupDummyData();
    }

    /** `setupDummyData`: build the three lists item by item and append
        them. */
    method SetupDummyData()
      modifies this`lists
      ensures lists == old(lists) + DummyLists()
    {
      var list1: seq<ImageItem> := [];
      var list2: seq<ImageItem> := [];
      var list3: seq<ImageItem> := [];
      for i := 0 to ItemsPerList
        invariant list1 == DummyItems(1, i)
        invariant list2 == DummyItems(2, i)
        invariant list3 == DummyItems(3, i)
      {
        var image: nat;
        match i % 6 {
          case 0 => image := 1;
          case 1 => image := 2;
          case 2 => image := 3;
          case 3 => image := 4;
          case 4 => image := 5;
          case 5 => image := 6;
          case _ => image := 7;
        }
        list1 := list1 + [ImageItem(image, 100 + i)];
        list2 := list2 + [ImageItem(image, 200 + i)];
        list3 := list3 + [ImageItem(image, 300 + i)];
      }
      lists := lists + [(ListTitles[0], list1)];
      lists := lists + [(ListTitles[1], list2)];
      lists := lists + [(ListTitles[2], list3)];
    }

    /** `onViewDidLoad`: hand the lists to the view controller. */
    method OnViewDidLoad()
      modifies this`shownLists
      ensures shownLists == lists
    {
      shownLists := lists;
    }

    /** `setSelectModeView`: checkboxes in select mode, toolbar only then. */
    method SetSelectModeView()
      modifies this`viewSelectMode, this`toolbarHidden
      ensures viewSelectMode == isSelectMode && toolbarHidden == !isSelectMode
    {
      viewSelectMode := isSelectMode;
      toolbarHidden := !isSelectMode;
    }

    /** `onViewWillDisappear`: leave select mode. */
    method OnViewWillDisappear()
      modifies this`isSelectMode, this`viewSelectMode, this`toolbarHidden
      ensures !isSelectMode && !viewSelectMode && toolbarHidden
    {
      isSelectMode := false;
      SetSelectModeView();
    }

    /** `onEditButtonTapped`: toggle select mode. */
    method OnEditButtonTapped()
      modifies this`isSelectMode, this`viewSelectMode, this`toolbarHidden
      ensures isSelectMode == !old(isSelectMode)
      ensures viewSelectMode == isSelectMode && toolbarHidden == !isSelectMode
    {
      isSelectMode := !isSelectMode;
      SetSelectModeView();
    }

    /** `onImageTapped`: open the detail of an existing image; ignore a tap
        outside the lists. */
    method OnImageTapped(section: nat, row: nat)
      modifies this`navigations
      ensures var inRange := section < |lists| && row < |lists[section].1|;
              navigations == old(navigations) + (if inRange then [GotoImageDetail(section, row, lists[section].1[row].image)] else [])
    {
      if !(section < |lists| && row < |lists[section].1|) {
        return;
      }
      navigations := navigations + [GotoImageDetail(section, row, lists[section].1[row].image)];
    }
  }

  /** Worked example. Two taps on Edit restore the mode; leaving the screen always ends
      select mode; a tap opens the tapped image. */
  method SelectModeScenario()
  {
    var presenter := new AllImagePresenter();
    presenter.OnEditButtonTapped();
    assert presenter.isSelectMode && !presenter.toolbarHidden;
    presenter.OnEditButtonTapped();
    assert !presenter.isSelectMode && presenter.toolbarHidden;
    presenter.OnEditButtonTapped();
    presenter.OnViewWillDisappear();
    assert !presenter.isSelectMode;
    presenter.OnImageTapped(2, 7);
    assert presenter.navigations == [GotoImageDetail(2, 7, 2)];
    presenter.OnImageTapped(3, 0);
    presenter.OnImageTapped(0, 100);
    assert |presenter.navigations| == 1;
  }
}
