/** Deployment constants of the moderation bot (config.py). */
module Config {

  /** Seconds between sending a challenge and checking whether it was answered. */
  const VerificationTimeout: int := 60

  /** Words whose presence, ignoring case, marks a message as suspected spam. */
  const ForbiddenWords: seq<string> := [
    "казино", "выигрыш", "ставки", "букмекер", "заработок", "инвестиции",
    "быстрые деньги", "криптовалюта", "заработок без вложений", "бесплатно",
    "акция", "скидка", "распродажа", "бонус", "промокод", "регистрация",
    "вип", "эксклюзив"
  ]
}
