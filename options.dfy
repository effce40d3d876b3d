/** An optional value. In the backtest it stands for a floating-point series entry that may be
    NaN (None); in the dashboard for a trade timestamp that may fail to parse (None). */
module Options {

  datatype Option<+T> = None | Some(value: T)

}
