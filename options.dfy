/** The optional value used for `dragLayerIndex` (null in the source), for the drag
    offsets (undefined until a drag starts) and for hit-search results. */
module Options {
  datatype Option<T> = None | Some(value: T)
}
