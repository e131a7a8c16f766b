/**
 The board and the two card decks of LivePoly.

 A tile key of the program is the tile's index on the board here: the keys are unique,
 so renaming them to positions loses nothing. A card key is a deck and a position in it.
 Every operation of the engine takes a `Rules` value, so that the results hold for any
 well-formed board and any well-formed decks, not only for the classic ones.
 */
module Rules {

  datatype Option<+T> = None | Some(value: T)

  datatype OwnableKind = PropertyKind | AirportKind | UtilityKind

  datatype Tile =
    | Go
    | Jail
    | FreeParking
    | GoToJail
    | Chance
    | WorldFund
    | Tax(amount: nat)
    | Property(setKey: nat, price: nat, baseRent: nat, rentByHouses: seq<nat>, hotelRent: nat,
               houseCost: nat, mortgageValue: nat, unmortgageCost: nat)
    | Airport(price: nat, rentByOwned: seq<nat>, mortgageValue: nat, unmortgageCost: nat)
    | Utility(price: nat, multiplierByOwned: seq<nat>, mortgageValue: nat, unmortgageCost: nat)
  {
    predicate Ownable() {
      Property? || Airport? || Utility?
    }

    predicate HasKind(kind: OwnableKind) {
      match kind
      case PropertyKind => Property?
      case AirportKind => Airport?
      case UtilityKind => Utility?
    }
  }

  datatype DeckKey = ChanceDeck | WorldFundDeck

  datatype CardKey = CardKey(deck: DeckKey, index: nat)

  datatype CardEffect =
    | CollectMoney(amount: nat)
    | PayMoney(amount: nat)
    | MoveToTile(tile: nat, collectPassGo: bool)
    | MoveRelative(spaces: int)
    | MoveToNearest(kind: OwnableKind, collectPassGo: bool)
    | SendToJail
    | GetOutOfJailFree
    | CollectFromEach(amount: nat)
    | PayEach(amount: nat)
    | Repairs(houseAmount: nat, hotelAmount: nat)

  datatype Rules = Rules(tiles: seq<Tile>, passGoCash: nat, jailPosition: nat,
                         chance: seq<CardEffect>, worldFund: seq<CardEffect>,
                         fallbackJailCard: CardKey)
  {
    function Deck(deck: DeckKey): seq<CardEffect> {
      match deck
      case ChanceDeck => chance
      case WorldFundDeck => worldFund
    }

    predicate HasCard(card: CardKey) {
      card.index < |Deck(card.deck)|
    }

    predicate IsJailCard(card: CardKey) {
      HasCard(card) && Deck(card.deck)[card.index].GetOutOfJailFree?
    }

    predicate Ownable(tile: nat) {
      tile < |tiles| && tiles[tile].Ownable()
    }

    predicate IsProperty(tile: nat) {
      tile < |tiles| && tiles[tile].Property?
    }

    predicate SameSet(left: nat, right: nat) {
      IsProperty(left) && IsProperty(right) && tiles[left].setKey == tiles[right].setKey
    }
  }

  /** The program's unmortgage cost is a ceiling taken in floating point of 1.1 times the value. */
  predicate UnmortgageCostOk(mortgageValue: nat, cost: nat) {
    cost == (11 * mortgageValue + 9) / 10 || cost == (11 * mortgageValue + 9) / 10 + 1
  }

  predicate ValidTile(t: Tile) {
    match t
    case Property(_, _, _, rents, _, houseCost, value, cost) =>
      |rents| == 4 && houseCost > 0 && houseCost % 2 == 0 && UnmortgageCostOk(value, cost)
    case Airport(_, rents, value, cost) => |rents| == 4 && UnmortgageCostOk(value, cost)
    case Utility(_, multipliers, value, cost) => |multipliers| == 2 && UnmortgageCostOk(value, cost)
    case _ => true
  }

  predicate ValidEffect(tiles: seq<Tile>, effect: CardEffect) {
    match effect
    case MoveToTile(tile, _) => tile < |tiles|
    case MoveRelative(spaces) => -|tiles| <= spaces
    case MoveToNearest(kind, _) => exists k :: 0 <= k < |tiles| && tiles[k].HasKind(kind)
    case _ => true
  }

  predicate ValidDeck(tiles: seq<Tile>, deck: seq<CardEffect>) {
    && (forall i :: 0 <= i < |deck| ==> ValidEffect(tiles, deck[i]))
    && (exists i :: 0 <= i < |deck| && !deck[i].GetOutOfJailFree?)
  }

  predicate ValidRules(r: Rules) {
    && |r.tiles| > 0
    && r.jailPosition < |r.tiles|
    && (forall k :: 0 <= k < |r.tiles| ==> ValidTile(r.tiles[k]))
    && ValidDeck(r.tiles, r.chance)
    && ValidDeck(r.tiles, r.worldFund)
    && r.IsJailCard(r.fallbackJailCard)
  }
}
