/** The persisted key/value settings the widget reads once when it is built
    and writes back on every change of draw mode, spacing or grid size. The
    store itself is external; the model only records what is read and
    written. */
module Settings {
  import opened Options

  /** The values found in the store at construction; `None` is a missing key. */
  datatype StoredSettings = StoredSettings(
    drawMode: Option<int>,
    spacing: Option<real>,
    xSize: Option<int>,
    ySize: Option<int>,
    zSize: Option<int>)

  datatype SettingValue = IntValue(i: int) | RealValue(r: real)

  /** One write to the store: the key and the value written. */
  datatype SettingWrite = SettingWrite(key: string, value: SettingValue)

  /** Defaults used for a missing key. */
  const DefaultDrawMode: int := 1
  const DefaultSpacing: real := 0.5
  const DefaultSize: int := 20
}
