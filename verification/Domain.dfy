/** Values shared by every layer: the source's fixed-width `int`, its entities, and the
    result types that stand for `std::optional`, `std::expected` and thrown exceptions. */
module Domain {

  const INT_MIN: int := -0x8000_0000
  const INT_MAX: int := 0x7FFF_FFFF

  /** The C++ `int` in which ids travel outside the database. */
  type Int32 = x: int | INT_MIN <= x <= INT_MAX

  /** `Column::getInt` and `static_cast<int>`: the low 32 bits, read as a signed number. */
  function GetInt(n: int): (r: Int32)
    ensures INT_MIN <= n <= INT_MAX ==> r == n
    ensures (n - r) % 0x1_0000_0000 == 0
  {
    if INT_MIN <= n <= INT_MAX then n
    else
      var low := n % 0x1_0000_0000;
      if low <= INT_MAX then low else low - 0x1_0000_0000
  }

  datatype Option<+T> = None | Some(value: T)

  /** Constraint is SQLITE_CONSTRAINT; Other is any other exception. */
  datatype SqlError = Constraint | Other

  datatype Result<+T> = Ok(value: T) | Err(error: SqlError)

  type Bytes = seq<bv8>

  /** A plugin option's key: the owning user's id and the plugin's name. */
  datatype Key = Key(userId: Int32, pluginName: string)

  datatype PluginOptions = PluginOptions(
    id: Int32, userId: Int32, pluginName: string,
    enabled: bool, favorite: bool, fields: map<string, string>)
  {
    function GetKey(): Key { Key(userId, pluginName) }
  }

  /** `enum class VerificationMethod : std::uint8_t`; any byte is a value of that type. */
  newtype VerificationMethod = x: int | 0 <= x < 256
  const PASSWORD: VerificationMethod := 0
  const GOOGLE: VerificationMethod := 1

  datatype User = User(id: Int32, email: string, password: Bytes, verification: VerificationMethod)
}
