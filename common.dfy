/** Values shared by every service: nullable values, the exceptions the services throw,
    and the constants of StatusConstant, MessageConstant and PasswordConstant. */
module Common {

  /** A value that Java may leave null. */
  datatype Option<+T> = None | Some(value: T) {
    function GetOr(default: T): T {
      match this
      case Some(v) => v
      case None => default
    }
  }

  /** The exceptions a service call can end in. A business exception carries its message;
      the others are the runtime exceptions the code lets escape. */
  datatype Error =
    | Business(message: string)
    | NullPointer
    | IndexOutOfBounds
    | TooManyResults

  datatype Result<+T> = Success(value: T) | Failure(error: Error)

  /** The outcome of a service method that returns nothing. */
  datatype Outcome = Ok | Fail(error: Error)

  // StatusConstant
  const Enable: int := 1
  const Disable: int := 0

  // PasswordConstant
  const DefaultPassword: string := "123456"

  // MessageConstant
  const PasswordError: string := "密码错误"
  const AccountNotFound: string := "账号不存在"
  const AccountLocked: string := "账号被锁定"
  const UnknownError: string := "未知错误"
  const CategoryRelatedBySetmeal: string := "当前分类关联了套餐,不能删除"
  const CategoryRelatedByDish: string := "当前分类关联了菜品,不能删除"
  const ShoppingCartIsNull: string := "购物车数据为空，不能下单"
  const AddressBookIsNull: string := "用户地址为空，不能下单"
  const SetmealEnableFailed: string := "套餐内包含未启售菜品，无法启售"
  const DishOnSale: string := "起售中的菜品不能删除"
  const SetmealOnSale: string := "起售中的套餐不能删除"
  const DishRelatedBySetmeal: string := "当前菜品关联了套餐,不能删除"
  const OrderStatusError: string := "订单状态错误"
  const OrderNotFound: string := "订单不存在"
  const OrderPaid: string := "该订单已支付"
  const AlreadyExists: string := "已存在"

  /** Integer.toString: decimal digits, with a leading minus sign for a negative value. */
  function IntToString(i: int): (r: string)
    ensures |r| > 0
  {
    if i < 0 then "-" + NatToString(-i) else NatToString(i)
  }

  /** The number a string of decimal digits denotes, most significant digit first. */
  function DigitsValue(s: string): nat {
    if s == [] then 0
    else
      var d := s[|s| - 1] as int - '0' as int;
      DigitsValue(s[..|s| - 1]) * 10 + (if 0 <= d then d else 0)
  }

  /** The decimal digits of n, most significant first, with no leading zero. */
  function NatToString(n: nat): (r: string)
    ensures |r| > 0 && forall c :: c in r ==> '0' <= c <= '9'
    ensures DigitsValue(r) == n
    ensures |r| > 1 ==> r[0] != '0'
  {
    if n < 10 then [('0' as int + n) as char]
    else
      var r := NatToString(n / 10) + [('0' as int + n % 10) as char];
      assert r[..|r| - 1] == NatToString(n / 10);
      r
  }
}
