/**
 The wallet-command vocabulary shared by the dashboard and the withdrawal screens:
 the status of a command, its action and the command record itself. The string values
 the server uses for these enumerations live in services/API/walletAPI.ts, which is not
 part of this model; `Other` stands for any status outside the five the pages name, and
 `OtherAction` for any action other than the withdrawal, the only one the pages send.
 */
module Wallet {
  import opened Text

  datatype WalletCommandStatus =
    | WaitToResolve
    | WaitToPay
    | Rejected
    | Success
    | Returned
    | Other(raw: string)

  datatype WalletAction = Withdraw | OtherAction(raw: string)

  datatype WalletCommand = WalletCommand(
    id: string,
    code: string,
    createdBy: string,
    createdAt: string,
    amount: int,
    bankCode: string,
    accountNumber: string,
    receiverName: string,
    status: WalletCommandStatus,
    paymentLink: Option<string>)
}
