/** Values UIKit hands to the views: optional values, gesture recognizer
    states and size classes. */
module UIKit {

  datatype Option<T> = None | Some(value: T)

  /** UIGestureRecognizer.State; `Other` stands for possible and failed. */
  datatype GestureState = Began | Changed | Ended | Cancelled | Other

  /** UIUserInterfaceSizeClass */
  datatype SizeClass = Unspecified | Compact | Regular
}
