/** An optional value: stands for numpy's NaN "unset" marker and for
    `bit_depth = None`. */
module Optional {

  datatype Option<+T> = None | Some(value: T)
}
